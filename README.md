# JIRA Board Glance: sign-in, session and board summaries in Dafny

JIRA Board Glance is a Next.js application. A user signs in with their
Atlassian account through the OAuth 2.0 authorization-code flow (RFC 6749,
section 4.1). The tokens received are kept in an encrypted session cookie.
The dashboard then shows every Jira board with the number of issues in each
of its columns.

This project models the logic under the HTTP, cookie and React layers:

- the session store: a key/value view loaded from one sealed cookie.
  Its `set`, `save` and `destroy`, and the view that ignores writes when
  there is no readable cookie;
- the Jira client: token selection, header order, cloud-id caching, the `|| []`
  defaults and the per-column issue counts;
- the API routes: OAuth redirect, OAuth callback, boards, user status and
  logout;
- the environment check, the login page's banners, the column icon and
  plural rule, and the account button's initials.

State that the source updates in place is modelled imperatively:

- The request's cookie store is a `CookieJar` object (`Cookies`).
- The upstream servers are a `Network` object (`Http`). It has a fixed
  `respond` function and a log of the requests sent.
- The session view is a `Session` object (`AuthService`).

Each handler is a method over these objects. Its `ensures` ties the new jar,
the new log and the returned value to a pure specification function on a
`State(jar, log)` value. The lemmas state what the source promises about those
functions.

The sealing of `iron-session` is a concrete keyed, reversible encoding
(`Sealing`). Unsealing with another password, or unsealing a malformed blob,
fails. Randomness (the `uuid` state), environment variables and
`ATLASSIAN_*` credentials are parameters.

The callback re-reads the session for the cloud-id and user lookups after
the exchange (`src/app/api/auth/jira/callback/route.ts:63-64`). It does not
pass the freshly returned token: the access token is read back from the
session view after `storeTokens`. The model follows the code.

A consequence follows from the view that ignores writes when the browser has
no session cookie yet. There, `storeTokens` changes nothing. The lookups then
fail with "Not authenticated", so a first sign-in always ends on the login page
with `internal_server_error`. `CallbackRoute.FirstLoginFails` states this.

## Model

| member | source | states |
|---|---|---|
| Cookies.CookieJar.Set | src/lib/authService.ts:61 | setting a cookie replaces exactly that name's entry with the issued value and options |
| Cookies.CookieJar.Delete | src/lib/authService.ts:58 | deleting a cookie removes exactly that name and keeps every other cookie |
| Http.Network.Fetch | src/lib/jiraService.ts:20 | a fetch appends the request to the log and yields the servers' outcome for it |
| Sealing.SealRoundTrip | src/lib/authService.ts:40-41 | unsealing a sealed session with the same password gives back exactly that session data |
| Sealing.SealWrongPassword | src/lib/authService.ts:69-72 | unsealing with a different password fails, so the cookie reads as no session |
| Sealing.Seal | src/lib/authService.ts:60 | a sealed blob opens to the password it was sealed under, followed by the encoded session fields |
| Sealing.UnsealIsSeal | src/lib/authService.ts:41 | whatever unseals is exactly the seal of the data it yields under that password, so an altered blob never opens as a different session |
| AuthService.Session.Set | src/lib/authService.ts:49-51 | on a live view, `set(k, v)` replaces field k only and every other field reads as before; on a no-op view nothing changes |
| AuthService.Session.Save | src/lib/authService.ts:56-63 | on a live view, the jar holds the sealed view under the session cookie, or no session cookie when the view is empty; a no-op view leaves the jar alone |
| AuthService.Session.Destroy | src/lib/authService.ts:52-55 | on a live view, the view becomes empty and the session cookie is deleted; a no-op view changes nothing |
| AuthService.SessionCookieOptions | src/lib/authService.ts:7-12 | the session cookie is httpOnly, secure exactly in production, lives one week (604800 seconds) on path `/`, with no SameSite attribute |
| AuthService.GetSession | src/lib/authService.ts:22-82 | the view is live exactly when the session cookie unseals with the secret, and holds that data (else it is empty) |
| AuthService.StoreTokens | src/lib/authService.ts:84-91 | the jar after storing tokens is the one where the access token, and a truthy refresh token, have been written and saved |
| AuthService.StoreCloudId | src/lib/authService.ts:93-97 | the jar after storing the cloud id is the one where the cloud id has been written and saved |
| AuthService.StoreUserDetails | src/lib/authService.ts:99-104 | the jar after storing user details is the one where user id and user name have been written and saved |
| AuthService.GetAccessToken | src/lib/authService.ts:106-109 | returns the session's access token, and nothing without a readable session |
| AuthService.GetCloudId | src/lib/authService.ts:111-114 | returns the session's cloud id, and nothing without a readable session |
| AuthService.GetUserDetails | src/lib/authService.ts:116-124 | returns the stored user id and name exactly when the user id is truthy |
| AuthService.ClearSession | src/lib/authService.ts:126-129 | the jar afterwards has the session cookie deleted when it was readable, and is unchanged otherwise |
| AuthService.IsAuthenticated | src/lib/authService.ts:131-134 | true exactly when the stored access token is truthy |
| AuthService.PersistThenLoad | src/lib/authService.ts:56-63 | loading what `save` wrote gives the saved data back, or no session when the data was empty; no other cookie changes |
| AuthService.NoSessionIgnoresWrites | src/lib/authService.ts:26-38 | without a readable cookie every read is undefined, nobody is authenticated, and storing tokens, cloud id or user details and clearing leave the jar unchanged |
| AuthService.ForeignCookieIsNoSession | src/lib/authService.ts:69-81 | a cookie sealed with another secret is treated as no session: it does not authenticate, and storing tokens, the cloud id or user details, or clearing, leaves the jar unchanged for every value written |
| AuthService.StoreTokensThenAccessToken | src/lib/authService.ts:84-91 | with a readable session, storing tokens and then reading the access token gives the new token, the refresh token when it was truthy, and authentication when the token is non-empty |
| AuthService.StoreTokensKeepsRefresh | src/lib/authService.ts:87-89 | a falsy refresh token leaves the stored refresh token as it was and changes only the access token |
| AuthService.StoreCloudIdThenRead | src/lib/authService.ts:93-97 | after storing a cloud id, reading it gives that id and every other field is unchanged |
| AuthService.StoreUserDetailsThenRead | src/lib/authService.ts:99-104 | after storing user details, they read back (none for an empty id), and the access token and cloud id are unchanged |
| AuthService.UserDetailsWhenUserId | src/lib/authService.ts:116-124 | user details exist exactly when the stored user id is truthy, and then carry the stored id and name |
| AuthService.ClearedIsLoggedOut | src/lib/authService.ts:126-134 | after clearing, no session is readable, nobody is authenticated, and only the session cookie may differ |
| AuthService.WritesTouchOnlySessionCookie | src/lib/authService.ts:84-104 | the three store operations change no cookie except the session cookie |
| JiraService.SelectToken | src/lib/jiraService.ts:7-11 | a truthy explicit token wins, else a truthy session token; with neither the call fails with "Not authenticated" |
| JiraService.AuthHeaders | src/lib/jiraService.ts:13-18 | the headers are the caller's plus Authorization, Accept and Content-Type, the three fixed values overriding same-named caller headers |
| JiraService.FetchWithAuth | src/lib/jiraService.ts:7-21 | the authorized fetch sends what the specification function says and leaves the jar alone |
| JiraService.NoTokenNoRequest | src/lib/jiraService.ts:7-11 | with no truthy token the call fails with "Not authenticated" and sends nothing |
| JiraService.TokenBearingRequest | src/lib/jiraService.ts:7-20 | with a token, exactly one GET request carrying the bearer header for the chosen token is sent, and its outcome is returned |
| JiraService.FetchWithAuthSendsGet | src/lib/jiraService.ts:7-21 | an authorized fetch adds at most one request, a GET, and changes no cookie |
| JiraService.GetAccessibleResources | src/lib/jiraService.ts:23-30 | the resource list or the thrown message is what the specification function gives for the same jar and log |
| JiraService.GetCloudId | src/lib/jiraService.ts:33-51 | the cloud id lookup yields the specification function's result, jar and log |
| JiraService.CachedCloudIdNoRequest | src/lib/jiraService.ts:35-40 | without an explicit token, a stored cloud id is returned with no request sent and nothing changed |
| JiraService.CloudIdFromResources | src/lib/jiraService.ts:43-50 | otherwise an empty resource list fails with "No accessible JIRA resources found for this user.", and a non-empty one returns the first id and stores it, with an explicit token too |
| JiraService.CloudIdKeepsToken | src/lib/jiraService.ts:33-51 | resolving the cloud id keeps the access token, changes only the session cookie and sends at most one request |
| JiraService.CloudIdIdempotent | src/lib/jiraService.ts:33-51 | with a readable session, a second lookup after a successful one returns the same id with no request and no change |
| JiraService.CloudIdSendsGets | src/lib/jiraService.ts:33-51 | the cloud id lookup sends only GET requests and changes only the session cookie |
| JiraService.GetJiraUser | src/lib/jiraService.ts:53-60 | the user profile or the thrown message is what the specification function gives |
| JiraService.JiraUserSendsGets | src/lib/jiraService.ts:53-60 | the profile lookup sends only GET requests and changes no cookie |
| JiraService.GetBoards | src/lib/jiraService.ts:63-72 | the board list or the thrown message is what the specification function gives |
| JiraService.GetBoardConfiguration | src/lib/jiraService.ts:74-82 | the configuration or the thrown message naming the board is what the specification function gives |
| JiraService.GetBoardIssues | src/lib/jiraService.ts:84-93 | the issue list or the thrown message naming the board is what the specification function gives |
| JiraService.CheckedOutcome | src/lib/jiraService.ts:25-28 | a rejected fetch keeps its error, a response that is not ok becomes the reader's message whatever its body, and an ok response yields its body |
| JiraService.NonOkResponsesFail | src/lib/jiraService.ts:23-90 | a non-ok response fails each reader with its own message: "Failed to fetch accessible resources", "... user details", "... boards", "... configuration for board N", "... issues for board N" |
| JiraService.MissingListsDefaultToEmpty | src/lib/jiraService.ts:70-92 | a page without `values` or `issues` yields the empty list, and a page with one yields it unchanged |
| JiraService.StatusIds | src/lib/jiraService.ts:105 | a column's status ids are its statuses' ids in their order |
| JiraService.Summaries | src/lib/jiraService.ts:104-117 | one summary per configuration column, in order, with its name, its status ids and the count of issues in them |
| JiraService.CountIssues | src/lib/jiraService.ts:106-111 | the counting loop finds the number the count function defines |
| JiraService.BuildColumns | src/lib/jiraService.ts:104-117 | the column loop builds exactly the summaries function's list |
| JiraService.GetBoardDetailsWithCounts | src/lib/jiraService.ts:95-130 | the board with details, the jar and the log are what the specification function gives; it never fails |
| JiraService.CountInIsMatches | src/lib/jiraService.ts:106-111 | a column's count is the number of issue positions whose status id is in the column, so at most the number of issues |
| JiraService.CountInSnoc | src/lib/jiraService.ts:107-110 | one more issue adds one to the count exactly when its status is in the column |
| JiraService.CountingExample | src/lib/jiraService.ts:106-111 | four issues with statuses 1, 3, 3, 4 count once for columns {1, 2} and twice for column {3} |
| JiraService.CountFour | src/lib/jiraService.ts:106-111 | the count over four issues is the sum of their individual memberships |
| JiraService.TotalAtMostIssues | src/lib/jiraService.ts:104-117 | when no status id appears in two columns, all columns together count at most the number of issues |
| JiraService.SumCountsIsTotal | src/lib/jiraService.ts:104-117 | the sum of the summaries' counts is the total of memberships over all columns |
| JiraService.DisjointColumnsCountAtMostIssues | src/lib/jiraService.ts:104-117 | with pairwise disjoint columns, the summaries' counts add up to at most the number of issues |
| JiraService.UnmappedIssueCountsNowhere | src/lib/jiraService.ts:106-111 | an issue whose status is in no column changes no summary |
| JiraService.DetailsShape | src/lib/jiraService.ts:95-130 | the result keeps the board; a failed fetch gives no columns; otherwise the columns follow the configuration with their names, status ids and matching-issue counts |
| RedirectRoute.AuthorizationLocation | src/app/api/auth/jira/redirect/route.ts:25-32 | the redirect goes to the Atlassian authorize URL with seven parameters in the order audience, client_id, scope, redirect_uri, state, response_type, prompt |
| RedirectRoute.AuthorizationParameters | src/app/api/auth/jira/redirect/route.ts:25-32 | every parameter reads back as its value: the state, the client id, the redirect URI, the four scopes, `api.atlassian.com`, `code` and `consent` |
| RedirectRoute.ScopeString | src/app/api/auth/jira/redirect/route.ts:18-28 | the scope is the four scopes joined by single spaces in their order |
| RedirectRoute.StateCookieOptions | src/app/api/auth/jira/redirect/route.ts:10-16 | the state cookie is httpOnly, secure exactly in production, lives 300 seconds on path `/` with SameSite=Lax |
| RedirectRoute.Authorize | src/app/api/auth/jira/redirect/route.ts:7-35 | the state cookie holds the state with httpOnly, 300 seconds, path `/`, lax and secure in production, and the URL carries the same state |
| CallbackRoute.ExchangeFailureDetail | src/app/api/auth/jira/callback/route.ts:56 | the failure detail is the error description, else the error, else `token_exchange_failed` |
| CallbackRoute.Recover | src/app/api/auth/jira/callback/route.ts:70-75 | the catch block clears the session and redirects with `internal_server_error` and the message |
| CallbackRoute.Callback | src/app/api/auth/jira/callback/route.ts:8-76 | the handler's redirect, final jar and request log are the specification function's |
| CallbackRoute.CookieNamesDiffer | src/app/api/auth/jira/callback/route.ts:15-16 | the state cookie and the session cookie have different names |
| CallbackRoute.StateCookieIsNotSession | src/app/api/auth/jira/callback/route.ts:15-16 | deleting the state cookie does not change the session that is read |
| CallbackRoute.AfterTokensEffects | src/app/api/auth/jira/callback/route.ts:60-75 | after the tokens are stored, only the session cookie changes and only GET requests are sent |
| CallbackRoute.ExchangeEffects | src/app/api/auth/jira/callback/route.ts:36-75 | the exchange sends the token POST, then only GET requests, and changes only the session cookie |
| CallbackRoute.StateCookieConsumed | src/app/api/auth/jira/callback/route.ts:15-16 | on every path the state cookie is gone afterwards and no cookie except the session cookie differs from the jar without it |
| CallbackRoute.EarlyExits | src/app/api/auth/jira/callback/route.ts:18-34 | an upstream error wins with `atlassian_error` and its description or code; then a missing or different state gives `invalid_state`; then a missing code gives `missing_code`; these paths send nothing and keep the session |
| CallbackRoute.ExchangeOnlyWhenChecksPass | src/app/api/auth/jira/callback/route.ts:18-49 | exactly one POST is sent when all three checks pass, zero otherwise, and it is the first request sent |
| CallbackRoute.ReplayRejected | src/app/api/auth/jira/callback/route.ts:15-29 | repeating the same callback query later is rejected with `invalid_state` and changes nothing |
| CallbackRoute.RedirectStateAccepted | src/app/api/auth/jira/callback/route.ts:27-29 | against the cookie the redirect route sets, the state check passes exactly for the state it minted |
| CallbackRoute.FailuresAfterExchangeLogOut | src/app/api/auth/jira/callback/route.ts:51-75 | after the exchange, every outcome other than the dashboard leaves nobody authenticated and redirects with `token_exchange_failed` or `internal_server_error` plus a message |
| CallbackRoute.CloudIdStored | src/lib/jiraService.ts:43-50 | with a readable session, a successful cloud-id lookup leaves that id stored |
| CallbackRoute.DashboardMeansSignedIn | src/app/api/auth/jira/callback/route.ts:60-68 | a dashboard redirect happens only after all checks passed and a non-empty token was granted; the token is stored and the user authenticated, the stored cloud id is the one resolved, and the stored user id and name are the fetched profile's `accountId` and `displayName` |
| CallbackRoute.FirstLoginFails | src/app/api/auth/jira/callback/route.ts:60-64 | without a session cookie, even a granted token ends on `internal_server_error` with "Not authenticated", and only the token POST is sent |
| BoardsRoute.AllDetailsSpec | src/app/api/jira/boards/route.ts:15-16 | the details of all boards never fail and have one entry per board, in the boards' order |
| BoardsRoute.AllBoardDetails | src/app/api/jira/boards/route.ts:15-16 | the loop over the boards collects exactly that list, jar and log |
| BoardsRoute.BoardsRoute | src/app/api/jira/boards/route.ts:6-24 | the reply, jar and log are the route's specification function's |
| BoardsRoute.UnauthorizedSendsNothing | src/app/api/jira/boards/route.ts:7-9 | an unauthenticated caller gets 401 `Unauthorized` and nothing is sent or changed |
| BoardsRoute.AuthorizedReply | src/app/api/jira/boards/route.ts:11-23 | for an authenticated caller, 500 happens exactly when the board list fails, with its message as details; otherwise 200 with one entry per board in order |
| BoardsRoute.StatusCodes | src/app/api/jira/boards/route.ts:6-24 | the status is always 200, 401 or 500 |
| BoardsRoute.DetailsInOrder | src/app/api/jira/boards/route.ts:15-16 | the k-th entry is the details of the k-th board, fetched after the boards before it |
| UserRoute.UserStatus | src/app/api/auth/jira/user/route.ts:4-33 | unauthenticated gives 200 with false only; a failed lookup gives 500 with the error; otherwise true, the cloud id, and the user object exactly when the user id is non-empty |
| UserRoute.UserRoute | src/app/api/auth/jira/user/route.ts:4-33 | the route only reads, and its reply is the specification function's |
| UserRoute.UserRouteReportsSession | src/app/api/auth/jira/user/route.ts:5-28 | the reply is 200, authenticated exactly when the session is, with the stored cloud id, and with the stored user or `null` by the user id |
| LogoutRoute.Logout | src/app/api/auth/jira/logout/route.ts:5-8 | after logout nobody is authenticated, only the session cookie may have changed, and the redirect is `/login?message=logged_out` |
| LogoutRoute.LogoutIdempotent | src/app/api/auth/jira/logout/route.ts:6 | clearing twice is clearing once |
| Config.MissingOfVariables | src/config/index.ts:8-13 | the missing list names each falsy variable in the fixed order |
| Config.MissingVariables | src/config/index.ts:8-13 | the sequence of guarded pushes builds exactly that list |
| Config.ReadEnvironment | src/config/index.ts:2-21 | it fails exactly when some variable is falsy, with the message naming them; otherwise all five values are returned |
| Config.MissingPositions | src/config/index.ts:8-13 | the missing names are exactly the falsy variables, each once, in their order |
| Config.MissingExtremes | src/config/index.ts:8-13 | all truthy gives an empty list; all falsy gives all five names in order |
| Config.EmptyIsMissing | src/config/index.ts:9-13 | an empty string counts as missing like an absent value |
| Config.MissingMessage | src/config/index.ts:16 | the message opens with "Missing required environment variables: " and closes with the advice to check `.env.local`, with the joined names between |
| Config.MessageNamesEveryMissing | src/config/index.ts:16 | the error message contains every missing name |
| LoginPage.ErrorBanner | src/app/login/page.tsx:17-38 | an error banner is shown exactly when the error code is truthy |
| LoginPage.SuccessBanner | src/app/login/page.tsx:40-43 | the success banner is shown exactly when there is no error and the message is `logged_out`, and it is the logged-out text |
| LoginPage.BannersExclusive | src/app/login/page.tsx:17-43 | the two banners are never shown together |
| LoginPage.ErrorText | src/app/login/page.tsx:19-37 | `invalid_state` and `missing_code` give their fixed texts whatever the message; the other three known codes give texts with their own opening (and closing); any other code gives the unknown-code text |
| LoginPage.Banners | src/app/login/page.tsx:14-43 | the error banner is shown exactly when `error` is truthy, the logout confirmation exactly when it is not and `message` is `logged_out`, never both |
| LoginPage.UnknownErrorEchoed | src/app/login/page.tsx:35-36 | an unknown code's text contains the code, and the message when it is truthy |
| LoginPage.MessageShown | src/app/login/page.tsx:26-34 | the three message-carrying texts contain a truthy message |
| LoginPage.ExchangeFailedShowsMessage | src/app/login/page.tsx:27 | the token-exchange text contains a truthy message |
| LoginPage.InternalErrorShowsMessage | src/app/login/page.tsx:30 | the internal-error text contains a truthy message |
| LoginPage.AtlassianErrorShowsMessage | src/app/login/page.tsx:33 | the Atlassian-error text contains a truthy message |
| LoginPage.FallbackShown | src/app/login/page.tsx:26-34 | without a truthy message, each of the three texts contains its own fallback |
| LoginPage.InternalErrorShowsFallback | src/app/login/page.tsx:30 | without a truthy message, the internal-error text contains "Please try again later." |
| LoginPage.LogoutShowsConfirmation | src/app/login/page.tsx:40-43 | the logout redirect shows the confirmation and no error |
| LoginPage.CallbackErrorsAreKnown | src/app/login/page.tsx:19-36 | every error code the callback redirects with is one of the page's known codes |
| ColumnDisplay.IconFor | src/components/ColumnDisplay.tsx:10-22 | the icon is to-do exactly when the lower-cased name holds a to-do keyword; in-progress when it holds no to-do but an in-progress keyword; done when it holds only done keywords; otherwise the default |
| ColumnDisplay.IssueLabel | src/components/ColumnDisplay.tsx:39 | the label is "issue" exactly for a count of one, else "issues" |
| ColumnDisplay.IconIgnoresCase | src/components/ColumnDisplay.tsx:10-22 | the icon does not depend on letter case |
| ColumnDisplay.ReopenedIsToDo | src/components/ColumnDisplay.tsx:12 | "Reopened" matches the to-do group through "open" |
| ColumnDisplay.ReviewDoneMatches | src/components/ColumnDisplay.tsx:15-18 | "review done" matches both the in-progress and the done groups |
| ColumnDisplay.ReviewDoneIsInProgress | src/components/ColumnDisplay.tsx:12-20 | "Review Done" gets the in-progress icon although it also matches done: the first group wins |
| ColumnDisplay.NoKeywordLettersIsUnknown | src/components/ColumnDisplay.tsx:21 | a name without the letters that start the nine keywords gets the default icon |
| AuthButton.FirstChars | src/components/AuthButton.tsx:26-27 | at most one character comes from each piece |
| AuthButton.Initials | src/components/AuthButton.tsx:23-29 | a falsy name gives "U"; otherwise the initials are no longer than the space-separated pieces |
| AuthButton.OneInitialPerWord | src/components/AuthButton.tsx:24-28 | there is one initial per non-empty piece, so repeated spaces add none |
| AuthButton.OneWordInitial | src/components/AuthButton.tsx:23-29 | a one-word name gives its upper-cased first letter |
| AuthButton.TwoWordInitials | src/components/AuthButton.tsx:23-29 | a two-word name gives both upper-cased first letters |
| AuthButton.View | src/components/AuthButton.tsx:21-77 | logged out shows the sign-in link; logged in shows the logout link, the initials only with an avatar (else the user icon), and "Signed in as" only with a truthy name |

## Left out

- `iron-session` cryptography: sealing is a keyed reversible encoding, not authenticated encryption, and the seal's time-to-live is not modelled.
- AuthService.ForeignCookieIsNoSession / Sealing.SealWrongPassword: the real `unsealData` of `iron-session` does not throw on a seal made under a foreign password, an expired seal or a bad integrity check. It returns `{}`, so `getSession` builds a live, empty view whose `save` takes effect. The model treats such a cookie as unreadable and routes it to the view that ignores writes, as the `catch` branch at `src/lib/authService.ts:69-81` intends.
- `cookies()` of Next.js: the jar is a map, and deleting a cookie removes its entry rather than sending an expiring header.
- Percent-encoding and `URL.toString()`: redirect targets are a base and a list of query pairs. `encodeURIComponent` in the callback and `decodeURIComponent` in the login page are identity (decoding a malformed `%` sequence would throw).
- `new URL(...)` throwing on a malformed `NEXT_PUBLIC_APP_URL` is not modelled.
- `Promise.all`: the boards, and each board's configuration and issues, are fetched one after the other in a fixed order. The source issues them concurrently.
- HTTP header names are compared case-sensitively, and a `Headers` instance passed as `options.headers` is not modelled. Only a plain record is.
- `response.json()` on a body of another shape: the model fails with "Unexpected response body". For example, a token response without `access_token` is stored as `undefined` in the source and later ends in "Not authenticated"; in the model it ends in "Unexpected response body" on the same `internal_server_error` path.
- UserRoute.UserRoute: the session reads do not throw in the model, so the route's 500 branch is unreachable there; `UserStatus` still states that branch.
- `src/config/index.ts` does not export the `ATLASSIAN_*` names the callback imports; the model passes them as parameters that may be undefined.
- `process.env`, `uuidv4()` and `NODE_ENV`: the environment, the new state value and the production flag are parameters.
- `console.*` logging, JSX markup, styling and the dashboard page's fetch and timeout handling.
- `toLowerCase`/`toUpperCase` map ASCII letters only.
- AuthButton.Initials: the contract bounds the length and fixes "U"; the exact initials are stated for one- and two-word names only.
- Behaviour the code does not have: token refresh, concurrency caps, per-board timeouts, or use of the fresh token after the exchange.
