# Instagram analytics: login, session cookies and insights, modelled in Dafny

This project models the decision logic of a small Next.js application that signs a user in with
Facebook Login, keeps the chosen Facebook page in a session cookie, and shows Instagram insights
from the Graph API. Every network call, clock read, environment read, URL parse and JSON parse is a
parameter of the model, so the remaining logic is deterministic and can be stated exactly.

| module (file) | models |
|---|---|
| `Wrappers` (wrappers.dfy) | `Option`, `Result`, JavaScript truthiness of an optional string |
| `Text` (text.dfy) | decimal rendering, `includes`, `trim` (ECMAScript whitespace), `split`/`join` |
| `Http` (http.dfy) | parsed URLs, requests, environment, and `Response` with its `Set-Cookie` list appended in place |
| `Codec` (codec.dfy) | a self-delimiting, URL-safe text codec that stands in for JSON plus base64url (RFC 4648 section 5) |
| `Session` (session.dfy) | lib/facebookSession.ts: cookie values, cookie reads, `Set-Cookie` strings (RFC 6265 section 4.1) and the cookie writers |
| `RequestOrigin` (request_origin.dfy) | lib/requestOrigin.ts: the public origin behind a proxy |
| `Graph` (graph.dfy) | lib/facebookGraph.ts: error construction, metric lists, the two insight reductions, the time window |
| `InsightsRoute` (insights_route.dfy) | app/api/facebook/insights/route.ts: ranking, leaderboard and status mapping |
| `Callback` (callback.dfy) | app/api/facebook/callback/route.ts: the authorization-code grant of RFC 6749 section 4.1 with the `state` check of section 10.12 |
| `SelectPage` (select_page.dfy) | app/api/facebook/select-page/route.ts: page selection after a multi-page login |
| `ViewModel` (view_model.dfy) | what both components share: ordered filtering and the error text of a failed fetch |
| `PostInsights` (post_insights.dfy) | app/components/PostInsights.tsx: shown metrics, watch-time text, fetch state |
| `AccountInsightsTable` (account_insights_table.dfy) | app/components/AccountInsightsTable.tsx: table rows, fetch state, silent refresh |

The two route handlers that change a response in place are methods. They build an `Http.Response`
and append the cookie headers one by one through the `Session` writers. Each is proved to answer
what a pure `…Outcome` function describes, and the lemmas are about those functions. The Graph reducers
are loops over a local map, proved against left folds. The component state is held in a class
whose `Begin…`/`Complete…` methods follow the `setState` calls of each fetch.

Some behaviour of the code is easy to miss, and the model states it explicitly:

- `x-forwarded-host ?? host` combines the headers with `??`. A present but blank `x-forwarded-host`
  therefore hides `host`, and the host is taken from the environment or the request URL instead.
- `renderUrl.protocol.replace(":", "")` drops only the first colon.
- `new Date().toISOString()` is called once per metric inside the daily-totals reduce, so two metrics
  may carry different sample dates.
- The API message of a failed fetch is chosen with `??` and then tested for truthiness. An empty
  top-level `message` hides the Graph API's own message, and the generic text is shown.
- Only metrics whose name contains `watch_time` are written as minutes and seconds.
  `ig_reels_video_view_total_time` ("Total Watch Time") does not contain it and is shown as a plain number.
- JavaScript's `%` keeps the sign of the dividend. `Math.floor(v / 60)` and `v % 60` are modelled
  separately for that reason.

## Model

| member | source | states |
|---|---|---|
| `Wrappers.OrElseChain` | lib/requestOrigin.ts:31-41 | a chain `a \|\| b \|\| c` of optional strings gives the first present, non-empty link (else the last), groups either way, and is truthy exactly when some link is |
| `Text.NatToString` | lib/facebookSession.ts:145 | the decimal text of a number is non-empty, all digits, and has no leading zero unless the number is 0 |
| `Text.DecimalRoundTrip` | lib/facebookSession.ts:145 | reading the decimal text back gives the number |
| `Text.IntToString` | app/components/PostInsights.tsx:145 | an integer's text is `-` and the digits of its magnitude when negative, else its digits |
| `Text.LeadingWhitespace` | lib/requestOrigin.ts:10 | the count is of whitespace characters only, and the character after them is not whitespace |
| `Text.WithoutTrailingWhitespace` | lib/requestOrigin.ts:10 | everything after the cut is whitespace, and the last character kept is not |
| `Text.Trim` | lib/requestOrigin.ts:10 | the trimmed text has no whitespace at either end, and is empty exactly when the input is all whitespace |
| `Text.TrimIsSlice` | lib/requestOrigin.ts:10 | the trimmed text is a slice of the input with only whitespace around it |
| `Text.TrimAddsNothing` | lib/requestOrigin.ts:8-11 | a character absent from the input is absent from the trimmed text |
| `Text.Split` | lib/requestOrigin.ts:9 | `split` gives at least one piece and no piece holds the separator |
| `Text.JoinSplit` | lib/requestOrigin.ts:9 | joining the pieces with the separator gives back the input |
| `Http.FirstValue` | app/api/facebook/callback/route.ts:67-68 | `searchParams.get` (and `formData.get` in app/api/facebook/select-page/route.ts) is the value of the first pair with that name, and none when no pair has it |
| `Http.Response.Redirect` | app/api/facebook/callback/route.ts:147-149 | a fresh 302 redirect to the URL, with no body and no cookie header |
| `Http.Response.Json` | app/api/facebook/callback/route.ts:34-37 | a fresh JSON error response with the given status and no cookie header |
| `Http.Response.Unhandled` | app/api/facebook/callback/route.ts:42 | the 500 answer to a handler that threw, with no cookie header |
| `Http.Response.AppendSetCookie` | lib/facebookSession.ts:118 | `headers.append` adds the header after all earlier ones and changes nothing else |
| `Codec.HexValueOfDigit` | lib/facebookSession.ts:57 | a hex digit reads back as its value |
| `Codec.DecodeNat` | lib/facebookSession.ts:64 | a successful decode consumes at least one character |
| `Codec.DecodeEncodeNat` | lib/facebookSession.ts:56-69 | a number's encoding decodes back to it, leaving what followed |
| `Codec.DecodeEncodeInt` | lib/facebookSession.ts:56-69 | an integer's encoding decodes back to it, leaving what followed |
| `Codec.EncodeStringUrlSafe` | lib/facebookSession.ts:57 | a string's encoding uses only base64url characters |
| `Codec.DecodeString` | lib/facebookSession.ts:64-65 | a successful decode consumes at least one character |
| `Codec.DecodeEncodeString` | lib/facebookSession.ts:56-69 | a string's encoding decodes back to it, leaving what followed |
| `Codec.DecodeEncodeOptInt` | lib/facebookSession.ts:11 | an optional `expiresAt` decodes back to itself, absent or present |
| `Session.EncodeSessionUrlSafe` | lib/facebookSession.ts:56-58 | the cookie value of a session uses only base64url characters |
| `Session.EncodeSession` | lib/facebookSession.ts:56-58 | a session's cookie value is never empty, so it is always truthy when read back |
| `Session.DecodeSession` | lib/facebookSession.ts:60-69 | a missing or empty cookie value gives no session |
| `Session.DecodeEncodeSession` | lib/facebookSession.ts:56-69 | decoding an encoded session gives the session back |
| `Session.EncodeSessionInjective` | lib/facebookSession.ts:56-58 | two sessions with the same cookie value are equal |
| `Session.EncodePageUrlSafe` | lib/facebookSession.ts:71-73 | a page's encoding uses only base64url characters |
| `Session.DecodePage` | lib/facebookSession.ts:81-82 | a successful decode consumes input |
| `Session.DecodeEncodePage` | lib/facebookSession.ts:71-86 | a page's encoding decodes back to it, leaving what followed |
| `Session.EncodePagesUrlSafe` | lib/facebookSession.ts:71-73 | a page list's encoding uses only base64url characters |
| `Session.DecodePages` | lib/facebookSession.ts:81-82 | a successful decode consumes input |
| `Session.DecodeEncodePages` | lib/facebookSession.ts:71-86 | a page list's encoding decodes back to the same list in the same order |
| `Session.EncodePendingSessionUrlSafe` | lib/facebookSession.ts:71-73 | the cookie value of a pending session uses only base64url characters |
| `Session.EncodePendingSession` | lib/facebookSession.ts:71-73 | a pending session's cookie value is never empty |
| `Session.DecodePendingSession` | lib/facebookSession.ts:75-86 | a missing or empty cookie value gives no pending session |
| `Session.DecodeEncodePendingSession` | lib/facebookSession.ts:71-86 | decoding an encoded pending session gives it back |
| `Session.EncodePendingSessionInjective` | lib/facebookSession.ts:71-73 | two pending sessions with the same cookie value are equal |
| `Session.CookieGet` | lib/facebookSession.ts:92 | `cookieStore.get(name)?.value` is present exactly when the cookie is, and is then its value |
| `Session.ReadSession` | lib/facebookSession.ts:88-94 | a missing or empty session cookie reads as no session |
| `Session.ReadWrittenSession` | lib/facebookSession.ts:88-94 | a session cookie holding a session's encoding reads back as that session |
| `Session.ReadPendingSession` | lib/facebookSession.ts:96-104 | a missing or empty pending cookie reads as no pending session |
| `Session.ReadWrittenPendingSession` | lib/facebookSession.ts:96-104 | a pending cookie holding a pending session's encoding reads back as it |
| `Session.ReadState` | lib/facebookSession.ts:192-195 | the state is present exactly when the state cookie is, and is then its raw value |
| `Session.CookieAttributes` | lib/facebookSession.ts:141-150 | the attributes are `Path=/`, `HttpOnly`, `SameSite=Lax`, `Max-Age=<n>` in that order, and `Secure` is among them exactly in production |
| `Session.SetCookieHeader` | lib/facebookSession.ts:152 | the header is `name=value; Path=/; HttpOnly; SameSite=Lax; Max-Age=<n>`, followed by `; Secure` only in production |
| `Session.JoinAttributes` | lib/facebookSession.ts:152 | joining the attribute list with `"; "` gives the fixed attributes, the max age and the secure suffix |
| `Session.MaxAgeDigits` | lib/facebookSession.ts:145 | the three lifetimes are written `86400`, `600` and `0` |
| `Session.SessionCookie` | lib/facebookSession.ts:139-153 | the session cookie is `fb_auth=<encoded session>` with `Max-Age=86400` |
| `Session.PendingSessionCookie` | lib/facebookSession.ts:155-175 | the pending cookie is `fb_pending_session=<encoded pending session>` with `Max-Age=600` |
| `Session.StateCookie` | lib/facebookSession.ts:177-190 | the state cookie is `fb_oauth_state=<state>` with `Max-Age=600` |
| `Session.ClearCookie` | lib/facebookSession.ts:106-137 | a clearing header is `name=; Path=/; HttpOnly; SameSite=Lax; Max-Age=0`, plus `; Secure` in production |
| `Session.WithSessionCookie` | lib/facebookSession.ts:139-153 | appends the session cookie after the existing headers; status, location and body are unchanged |
| `Session.WithPendingSessionCookie` | lib/facebookSession.ts:155-175 | appends the pending-session cookie after the existing headers and changes nothing else |
| `Session.WithStateCookie` | lib/facebookSession.ts:177-190 | appends the state cookie after the existing headers and changes nothing else |
| `Session.ClearSessionCookie` | lib/facebookSession.ts:106-119 | appends the clearing header for `fb_auth` and changes nothing else |
| `Session.ClearPendingSessionCookie` | lib/facebookSession.ts:121-137 | appends the clearing header for `fb_pending_session` and changes nothing else |
| `Session.ClearStateCookie` | lib/facebookSession.ts:197-205 | appends the clearing header for `fb_oauth_state` and changes nothing else |
| `RequestOrigin.FirstNonBlankIndex` | lib/requestOrigin.ts:8-11 | every piece before the found position trims to empty, and the piece at it does not |
| `RequestOrigin.FirstNonBlankIsFirst` | lib/requestOrigin.ts:8-11 | `find(Boolean)` gives the trimmed piece at the first non-blank position, or nothing |
| `RequestOrigin.FirstListed` | lib/requestOrigin.ts:8-15 | no header gives nothing; a header gives nothing exactly when every comma-separated piece is blank; a listed value is non-empty, holds no comma and is trimmed at both ends |
| `RequestOrigin.FirstListedShape` | lib/requestOrigin.ts:8-15 | `find(Boolean)` over trimmed pieces is missing exactly when every piece is blank, and otherwise gives a non-empty, trimmed value without the separator when no piece has it |
| `RequestOrigin.ForwardedHost` | lib/requestOrigin.ts:4-5 | a present `x-forwarded-host` is taken as it is, even when blank; only a missing one falls back to `host` |
| `RequestOrigin.FirstIndexOf` | lib/requestOrigin.ts:39-40 | the position found holds the character and no earlier position does; the length when it is absent |
| `RequestOrigin.DropFirstColon` | lib/requestOrigin.ts:39-40 | `replace(":", "")` is one character shorter exactly when there is a colon |
| `RequestOrigin.DropFirstColonCutsFirst` | lib/requestOrigin.ts:39-40 | `replace(":", "")` cuts out the first colon and keeps everything before and after it; a text without a colon is unchanged |
| `RequestOrigin.ResolveHost` | lib/requestOrigin.ts:31-35 | the host is the first non-empty of: header host, `RENDER_EXTERNAL_HOSTNAME`, render-URL host, request-URL host |
| `RequestOrigin.ResolveProtocol` | lib/requestOrigin.ts:37-41 | the protocol is the first non-empty of: header, render-URL protocol, request-URL protocol, else `http` for a localhost host and `https` otherwise; never empty |
| `RequestOrigin.OriginHost` | lib/requestOrigin.ts:4-35 | the host chain is fed the first listed forwarded host, `RENDER_EXTERNAL_HOSTNAME`, the parsed `RENDER_EXTERNAL_URL` and the request URL, in that order: a listed forwarded host is the host, without one a non-empty `RENDER_EXTERNAL_HOSTNAME` is, and the host is empty only when no header lists one and the request URL's host is empty |
| `RequestOrigin.ResolveRequestOrigin` | lib/requestOrigin.ts:1-44 | the origin is a non-empty protocol, `://` and the resolved host, where the protocol chain is fed the first listed `x-forwarded-proto`, the parsed `RENDER_EXTERNAL_URL`, the request URL and that host |
| `RequestOrigin.ForwardedProtoWins` | lib/requestOrigin.ts:6-43 | a non-blank `x-forwarded-proto` is the origin's protocol, its first listed value |
| `RequestOrigin.ProtocolGuessedFromHost` | lib/requestOrigin.ts:37-41 | with no forwarded protocol, no render URL and no request scheme, a host containing `localhost` gets `http` and any other `https` |
| `RequestOrigin.ForwardedHostWins` | lib/requestOrigin.ts:4-11 | a non-blank `x-forwarded-host` decides the host, whatever `host` says |
| `RequestOrigin.BlankForwardedHostHidesHostHeader` | lib/requestOrigin.ts:4-5 | a present but blank `x-forwarded-host` skips `host` and falls through to the environment and the URL |
| `RequestOrigin.JoinPieceIsSlice` | lib/requestOrigin.ts:9 | every character of a split piece occurs in the split string |
| `RequestOrigin.UnparseableRenderUrlIgnored` | lib/requestOrigin.ts:17-29 | an unparseable `RENDER_EXTERNAL_URL` gives the same origin as an unset one |
| `Graph.NewGraphError` | lib/facebookGraph.ts:33-52 | the status is 500 when none is supplied and the supplied one otherwise; body and payload are copied |
| `Graph.HandleGraphError` | lib/facebookGraph.ts:54-77 | the thrown error carries the response status, the raw body and the parsed payload; its message is the payload message when that is not all whitespace, else the fallback |
| `Graph.MetricsForMediaType` | lib/facebookGraph.ts:193-222 | every list asks for `reach` and `total_interactions`, and a missing or unknown media type gets the IMAGE list |
| `Graph.UnknownMediaTypeIsImage` | lib/facebookGraph.ts:217-220 | an unknown or missing media type gets the IMAGE metric list |
| `Graph.MetricListsCoverReachAndInteractions` | lib/facebookGraph.ts:196-221 | every list asks for `reach` and `total_interactions`, and the VIDEO list asks for no profile metric or `follows` |
| `Graph.ReduceMediaInsights` | lib/facebookGraph.ts:243-249 | the in-place reduce computes the left fold of the entries |
| `Graph.MediaInsightsEntry` | lib/facebookGraph.ts:243-249 | `MediaInsightsOf` (the reduce): a metric is in the map exactly when some entry with that name has a numeric first value, and the last such entry gives its value |
| `Graph.FetchMediaInsights` | lib/facebookGraph.ts:224-250 | requests the media type's metrics; a failed reply throws the handled Graph error, a successful one gives the reduced map |
| `Graph.ClampedRange` | lib/facebookGraph.ts:305-308 | the range is between one day and 30 days less a minute: one day below 1, exactly the requested days from 1 to 29, the maximum from 30 on |
| `Graph.DefaultPeriodIsFourWeeks` | lib/facebookGraph.ts:300-309 | `RequestedDays`: a missing period gives a 28-day range, a given one the range of its own value |
| `Graph.AccountWindow` | lib/facebookGraph.ts:300-309 | `until` is now in whole seconds, `0 <= since <= until`, the span is the clamped range unless `since` hits 0, and a missing period means 28 days |
| `Graph.ReduceDailyTotals` | lib/facebookGraph.ts:362-381 | the in-place reduce computes the left fold of the metrics |
| `Graph.DailyTotalsEntry` | lib/facebookGraph.ts:362-381 | `DailyTotalsOf` (the reduce): a metric has an entry exactly when it is listed; the last listing decides it, with both totals equal to its total value (0 when absent) and one sample dated by the clock at that metric's own position |
| `Graph.FetchAccountInsights` | lib/facebookGraph.ts:296-387 | the clock is read once per metric; the daily error is raised before the follower error; on success the follower count is copied (absent stays absent) and the totals are the reduced map |
| `InsightsRoute.InsertKeepsOrder` | app/api/facebook/insights/route.ts:24 | inserting into a non-increasing list keeps it non-increasing and adds exactly the element |
| `InsightsRoute.InsertTier` | app/api/facebook/insights/route.ts:24 | inserting keeps every engagement tier in order, the new element first in its own tier |
| `InsightsRoute.SortIsOrderedPermutation` | app/api/facebook/insights/route.ts:24 | the sort gives a non-increasing permutation of its input |
| `InsightsRoute.SortIsStable` | app/api/facebook/insights/route.ts:24 | items of equal engagement keep their input order (`Array.prototype.sort` is stable) |
| `InsightsRoute.RankMediaByEngagement` | app/api/facebook/insights/route.ts:14-25 | the ranking is a non-increasing permutation of the scored media |
| `InsightsRoute.RankingIsStableSort` | app/api/facebook/insights/route.ts:14-25 | the ranking is a non-increasing, stable permutation of the scored media, each scored `(like_count ?? 0) + (comments_count ?? 0)` |
| `InsightsRoute.Entries` | app/api/facebook/insights/route.ts:58-68 | one entry per item, numbered consecutively from the first position |
| `InsightsRoute.Leaderboard` | app/api/facebook/insights/route.ts:58-68 | the leaderboard has `min(5, n)` entries for the top-ranked items at positions 1 to k, each with the item's id, caption, timestamp, permalink and engagement, counts defaulting to 0, and `media_url ?? thumbnail_url` |
| `InsightsRoute.FailureResponse` | app/api/facebook/insights/route.ts:70-103 | code 190 reads as not authenticated, another Graph error keeps its status, message and body and reports the Graph error's details, anything else is a 500 |
| `InsightsRoute.SummaryFacts` | app/api/facebook/insights/route.ts:37-69 | `InsightsGet` with fetched media: the summary counts every post; its top post is the first of the ranking and scores at least as much as any post; the leaderboard is the one built from the ranking; no posts give an empty summary |
| `InsightsRoute.StatusMapping` | app/api/facebook/insights/route.ts:27-104 | `InsightsGet`: no session gives 401, fetched media 200, code 190 the not-authenticated answer, another Graph error its status, anything else 500 |
| `Callback.RedirectUri` | app/api/facebook/callback/route.ts:40-65 | the default `/auth0` URI unless a configured URI resolves; a localhost URI is never used for a set, non-localhost origin; no URI when the default cannot be built |
| `Callback.ExpiresAt` | app/api/facebook/callback/route.ts:98-101 | `expiresAt` exists exactly when `expires_in > 0`, and is then the current second plus it |
| `Callback.CandidatePagesAppend` | app/api/facebook/callback/route.ts:120-127 | the candidates keep the accounts' order |
| `Callback.CandidatePagesMembers` | app/api/facebook/callback/route.ts:120-127 | the candidates are exactly the accounts with an Instagram business id, mapped field by field |
| `Callback.ChoosePage` | app/api/facebook/callback/route.ts:129-172 | no, one, or several candidates give no session, the single page's session, or a pending session holding every candidate |
| `Callback.TokenRequestOf` | app/api/facebook/callback/route.ts:30-83 | a code exchange happens exactly when credentials are set, a redirect URI exists and the state check passes, and it sends the app id, redirect URI, secret and code |
| `Callback.RespondToChoice` | app/api/facebook/callback/route.ts:129-172 | the response answers the outcome of the page choice |
| `Callback.SignIn` | app/api/facebook/callback/route.ts:136-156 | one candidate: redirect to `/?connected=1`, then clear state, clear pending, set session |
| `Callback.AskForPage` | app/api/facebook/callback/route.ts:158-172 | several candidates: redirect to `/select-page`, then clear state, clear session, set pending |
| `Callback.GrantedOutcome` | app/api/facebook/callback/route.ts:96-172 | after the exchange: an account fetch failure redirects with `accounts_fetch_failed` and sets no cookie; otherwise the answer is the page choice over the candidate pages, with `expiresAt` from `expires_in` |
| `Callback.AfterTokenGranted` | app/api/facebook/callback/route.ts:96-172 | the response answers `GrantedOutcome`: `accounts_fetch_failed` when the accounts fetch fails, else the page choice |
| `Callback.HandleCallback` | app/api/facebook/callback/route.ts:29-173 | the handler's response answers the callback outcome and it exchanges exactly the token request of the model |
| `Callback.CallbackOutcome` | app/api/facebook/callback/route.ts:29-173 | a JSON 500 exactly when credentials are missing; an exception exactly when no redirect URI can be built; a failed state check redirects with `oauth_state_mismatch`; a refused code exchange redirects with `token_exchange_failed`; a granted one answers `GrantedOutcome` for the granted token and lifetime; cookies are set only after a code exchange was made |
| `Callback.MissingCredentialsFirst` | app/api/facebook/callback/route.ts:33-38 | missing app id or secret gives a 500 before any other step |
| `Callback.StateMismatchRejected` | app/api/facebook/callback/route.ts:72-77 | a failed state check redirects with `oauth_state_mismatch`, sets no cookie, and the token endpoint is never consulted |
| `Callback.PageChoiceEffects` | app/api/facebook/callback/route.ts:129-172 | the redirect and the ordered cookie headers of each of the three branches |
| `Callback.SinglePageSessionCookieDecodes` | app/api/facebook/callback/route.ts:138-153 | the session cookie of a one-page login decodes to the user token, that page and `expiresAt` |
| `Callback.SinglePageIsListedAccount` | app/api/facebook/callback/route.ts:119-145 | a one-page login's session names an account that was listed with an Instagram business account |
| `SelectPage.ExtractPageId` | app/api/facebook/select-page/route.ts:10-32 | a JSON body gives `pageId` only when it is a string, a form body its first `pageId` entry only when it is a string, and any other content type nothing |
| `SelectPage.FindPage` | app/api/facebook/select-page/route.ts:52-54 | `find` gives the first page with that id, and nothing when no page has it |
| `SelectPage.Selection` | app/api/facebook/select-page/route.ts:36-69 | `pending_session_expired` exactly when no pending session is read; any other refusal is `page_selection_invalid`; an accepted id is non-empty and the session carries it with the pending user token and expiry |
| `SelectPage.SelectOutcome` | app/api/facebook/select-page/route.ts:34-79 | always a redirect; no cookie exactly when the selection is refused, to `/?error=<code>`; an accepted one goes to `/?connected=1` clearing the pending cookie, then setting the session cookie |
| `SelectPage.SignIn` | app/api/facebook/select-page/route.ts:62-78 | a valid selection redirects to `/?connected=1`, clears the pending cookie, then sets the session cookie |
| `SelectPage.Select` | app/api/facebook/select-page/route.ts:34-79 | the handler's response answers the page-selection outcome, cookies appended in order |
| `SelectPage.SelectedPageWasOffered` | app/api/facebook/select-page/route.ts:52-76 | a stored session is for the first pending page with the submitted id, with the pending session's user token and expiry |
| `SelectPage.RefusalSetsNoCookie` | app/api/facebook/select-page/route.ts:36-78 | a refused selection redirects with its error code and sets no cookie; an accepted one sets exactly two |
| `SelectPage.EmptyPageIdRejected` | app/api/facebook/select-page/route.ts:46-50 | an empty submitted id is refused with `page_selection_invalid`, even when a pending page has an empty id |
| `SelectPage.SelectingACandidateSignsIn` | app/api/facebook/select-page/route.ts:36-78 | sending back a stored pending session with one of its page ids stores the same session a one-page login with that page would |
| `ViewModel.KeepPresent` | app/components/PostInsights.tsx:114-116 | the kept metrics are exactly those of the order list that are present |
| `ViewModel.KeepPresentIsSubsequence` | app/components/PostInsights.tsx:114-116 | the kept metrics appear in the order list's order |
| `ViewModel.KeepPresentDistinct` | app/components/AccountInsightsTable.tsx:134-146 | without duplicates in the order list, no metric is kept twice |
| `ViewModel.ApiMessage` | app/components/PostInsights.tsx:71-74 | the API message is the first present of `message`, `facebookError.message`, `error_user_msg` |
| `ViewModel.ErrorMessage` | app/components/PostInsights.tsx:76-83 | `not_authenticated` gives the expired text; otherwise a non-empty API message is appended to the failure text, else the failure text alone |
| `ViewModel.EmptyMessageHidesFacebookMessage` | app/components/AccountInsightsTable.tsx:86-98 | an empty top-level `message` gives the failure text alone, even when the Graph API sent a message |
| `ViewModel.MessagePriority` | app/components/AccountInsightsTable.tsx:86-98 | a top-level message beats the Graph API's, which beats `error_user_msg` |
| `ViewModel.UnreadableBodyMessage` | app/components/AccountInsightsTable.tsx:85 | a body that is not JSON gives the failure text alone |
| `PostInsights.OrderedMetrics` | app/components/PostInsights.tsx:35-48 | the shown metrics are the order list's metrics present in the insights, in that order, none twice; other keys are never shown |
| `PostInsights.MetricOrderDistinct` | app/components/PostInsights.tsx:35-48 | the order list has no duplicates |
| `PostInsights.Label` | app/components/PostInsights.tsx:154 | the label is `METRIC_LABELS[metric]`, falling back to the name |
| `PostInsights.ShownMetricsAreLabelled` | app/components/PostInsights.tsx:20-48 | every shown metric has a label of its own |
| `PostInsights.WhichMetricsAreDurations` | app/components/PostInsights.tsx:142 | the average watch time is a duration; the total watch time and reach are not |
| `PostInsights.JsRemainder60` | app/components/PostInsights.tsx:145 | `v % 60` is in `0..59` for `v >= 0`, in `-59..0` for `v < 0`, and differs from `v` by a multiple of 60 |
| `PostInsights.WatchTimeParts` | app/components/PostInsights.tsx:145 | the minutes are `floor(v / 60)` and the seconds are JavaScript's `v % 60` |
| `PostInsights.WatchTimePartsSplit` | app/components/PostInsights.tsx:145 | for `v >= 0`, `60 * m + s == v` and `0 <= s < 60` |
| `PostInsights.DisplayValue` | app/components/PostInsights.tsx:141-146 | a metric that is not a duration shows the locale rendering of its number |
| `PostInsights.WatchTimeDisplay` | app/components/PostInsights.tsx:141-146 | a non-negative watch time shows as `<m>m <s>s` with `60 * m + s == v` and `s < 60` |
| `PostInsights.InsightsQuery` | app/components/PostInsights.tsx:63 | the query is `?type=` and the encoded media type when one is given, else empty |
| `PostInsights.Card.constructor` | app/components/PostInsights.tsx:54-56 | a new card is idle with no message and no metrics |
| `PostInsights.Card.BeginFetch` | app/components/PostInsights.tsx:59-60 | a fetch starts in the loading state with the message cleared and the old metrics kept; the card stays valid |
| `PostInsights.Card.CompleteFetch` | app/components/PostInsights.tsx:69-94 | a failure sets the error state and the chosen text, keeping the metrics; success replaces the metrics (`{}` when absent) and becomes ready; from any state the card is left valid (an error always has a message) |
| `PostInsights.ViewOf` | app/components/PostInsights.tsx:118-161 | without metrics: loading, error (with the message) or the empty text; with metrics, one cell per shown metric whatever the status |
| `PostInsights.Cells` | app/components/PostInsights.tsx:140-158 | each cell is the metric's label and display value, in order |
| `PostInsights.FailureWithoutMetricsShowsMessage` | app/components/PostInsights.tsx:122-128 | a failed fetch with nothing to show displays the chosen error text |
| `PostInsights.UnknownMetricsHidden` | app/components/PostInsights.tsx:114-116 | keys outside the order list change nothing on screen |
| `AccountInsightsTable.RowsOf` | app/components/AccountInsightsTable.tsx:134-146 | one row per metric, in order, copied from the totals |
| `AccountInsightsTable.Rows` | app/components/AccountInsightsTable.tsx:131-147 | no data or no insights gives no rows; otherwise one row per present metric of the order list |
| `AccountInsightsTable.RowMetrics` | app/components/AccountInsightsTable.tsx:139-140 | the metric column of the rows, one per row |
| `AccountInsightsTable.MetricOrderDistinct` | app/components/AccountInsightsTable.tsx:50-64 | the order list has no duplicates |
| `AccountInsightsTable.MetricOrderLabelled` | app/components/AccountInsightsTable.tsx:36-64 | every metric of the order list has a label |
| `AccountInsightsTable.RowsFollowOrder` | app/components/AccountInsightsTable.tsx:134-136 | the rows follow the order list, skip absent metrics and never repeat one |
| `AccountInsightsTable.RowsCopyTotals` | app/components/AccountInsightsTable.tsx:139-144 | each row has its metric's label and copies both totals unchanged |
| `AccountInsightsTable.Table.constructor` | app/components/AccountInsightsTable.tsx:67-69 | a new table is loading, with no message and no data |
| `AccountInsightsTable.Table.BeginFetch` | app/components/AccountInsightsTable.tsx:73-76 | a silent refresh changes nothing; another refresh shows loading and clears the message |
| `AccountInsightsTable.Table.CompleteFetch` | app/components/AccountInsightsTable.tsx:84-109 | a failure sets the error state and text and keeps the data; success stores the data and becomes ready; from any state an error is left with a message |
| `AccountInsightsTable.SilentRefreshFails` | app/components/AccountInsightsTable.tsx:122-129 | a silent refresh that fails shows the error while the rows still come from the earlier data |

## Left out

- Network calls, `Promise.all` and response bodies are left out. Each Graph or token-endpoint reply is an input value: `Graph.Reply`, `Callback.TokenReply`, the accounts list, `InsightsRoute.MediaResult`.
- JSON and base64url are replaced by the concrete codec in `Codec`. It is injective and URL-safe and has a decode-failure case, but it is not JSON.
- The source's decoders do no shape checking: any JSON decodes to "a session". The model's decoder accepts only well-formed encodings, so a malformed-but-parseable cookie gives a session in the source and none in the model.
- `Date.now()`, `new Date().toISOString()`, the environment and URL parsing (`new URL`) are parameters: `nowMillis`, `clock` (the ISO date returned by the n-th `new Date()` of the daily-totals reduce), `env`, `parseUrl` and `resolveUrl`.
- Next.js `cookies()` resolution is left out. The cookie store is the request's cookie map, and the fallback to the ambient store is not modelled.
- Metric values are integers. Fractional numbers, `NaN`, `Infinity` and `toLocaleString` (a `formatNumber` parameter) are floating point or locale formatting and are not modelled.
- `Graph.RequestedDays`: `Number.isFinite` is modelled as "present". Fractional periods are not modelled because values are integers.
- `Callback.HandleCallback`: two cases throw in the source and are not modelled: `tokenRes.json()` or `accountsRes.json()` on a body that is not JSON, and an accounts reply without `data`. The model takes those replies as already parsed.
- `Callback.TokenReply`: a successful token reply without `access_token` or `expires_in` is not representable. In the source the handler carries on: it sends `undefined` as the accounts request's token, and `undefined > 0` leaves `expiresAt` unset. Likewise an account missing `id`, `name` or `access_token` is mapped with `undefined` fields, while the model's `Account` always has all of them.
- `SelectPage.ExtractPageId`: `request.formData()` rejecting a malformed form body, which ends the handler with an exception, is not modelled. The form entries are an input.
- The analysis route, the thin proxy routes (posts, publish, account insights, logout, login, auth0) and the `login` route's random state are not part of this model.
- React rendering, hooks, effects, timers and the `POST_CREATED_EVENT` listener are left out. Only the state transitions and the derived views are modelled, and interleaved fetches appear only as arbitrary sequences of `BeginFetch`/`CompleteFetch` calls.
- The other UI files, including app/select-page/page.tsx, are not part of this model.
- Console logging is left out.
