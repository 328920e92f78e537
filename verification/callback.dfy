/** The OAuth redirect handler (app/api/facebook/callback/route.ts): the authorization-code grant of
    section 4.1 of RFC 6749 with the `state` check of section 10.12, followed by the choice of the
    Facebook page whose Instagram business account the session will use. */
module Callback {
  import opened Wrappers
  import opened Text
  import Http
  import Session
  import RequestOrigin

  const FACEBOOK_APP_ID: string := "FACEBOOK_APP_ID"
  const FACEBOOK_APP_SECRET: string := "FACEBOOK_APP_SECRET"
  const FACEBOOK_REDIRECT_URI: string := "FACEBOOK_REDIRECT_URI"
  const NODE_ENV: string := "NODE_ENV"

  /** One entry of `/me/accounts`; `instagramBusinessId` is `instagram_business_account?.id`. */
  datatype Account = Account(id: string, name: string, accessToken: string, instagramBusinessId: Option<string>)

  /** The parameters of the code-for-token exchange. */
  datatype TokenRequest = TokenRequest(clientId: string, redirectUri: string, clientSecret: string, code: string)

  /** The token endpoint's answer: the token and its lifetime, or a non-2xx reply. */
  datatype TokenReply = TokenGranted(accessToken: string, expiresIn: int) | TokenRefused

  // ---------------------------------------------------------------------------
  // The decisions the handler takes
  // ---------------------------------------------------------------------------

  /** Both app credentials are set and non-empty. */
  predicate CredentialsConfigured(env: map<string, string>) {
    Truthy(Http.EnvGet(env, FACEBOOK_APP_ID)) && Truthy(Http.EnvGet(env, FACEBOOK_APP_SECRET))
  }

  /** The CSRF check: a code and a state are present, a state cookie was stored, and the two states agree. */
  predicate StateMatches(code: Option<string>, state: Option<string>, storedState: Option<string>) {
    Truthy(code) && Truthy(state) && Truthy(storedState) && state == storedState
  }

  /** The redirect URI sent with the token exchange. `resolveUrl(input, base)` is `new URL(input, base)`,
      `None` when it throws. The default is `/auth0` resolved against the origin; when even that cannot
      be built the handler throws (`None` here). A configured URI that resolves is used, except that a
      localhost URI is refused for an origin that is set and not itself on localhost. */
  function RedirectUri(origin: string, configured: Option<string>,
                       resolveUrl: (string, string) -> Option<Http.Url>): (uri: Option<string>)
    ensures uri.None? <==> resolveUrl("/auth0", origin).None?
    ensures uri.Some? && !Truthy(configured) ==> uri.value == resolveUrl("/auth0", origin).value.href
    ensures uri.Some? && uri.value != resolveUrl("/auth0", origin).value.href ==>
      Truthy(configured) && resolveUrl(configured.value, origin).Some?
      && uri.value == resolveUrl(configured.value, origin).value.href
      && (origin == "" || Contains(origin, "localhost") || !Contains(resolveUrl(configured.value, origin).value.host, "localhost"))
    ensures uri.Some? && Truthy(configured) && resolveUrl(configured.value, origin).Some?
      && (origin == "" || Contains(origin, "localhost") || !Contains(resolveUrl(configured.value, origin).value.host, "localhost"))
      ==> uri.value == resolveUrl(configured.value, origin).value.href
  {
    match resolveUrl("/auth0", origin)
    case None => None
    case Some(defaultUrl) =>
      if !Truthy(configured) then Some(defaultUrl.href)
      else match resolveUrl(configured.value, origin)
        case None => Some(defaultUrl.href)
        case Some(url) =>
          if origin != "" && !Contains(origin, "localhost") && Contains(url.host, "localhost") then Some(defaultUrl.href)
          else Some(url.href)
  }

  /** `expiresAt`: now plus the token lifetime, in seconds, when the lifetime is positive. */
  function ExpiresAt(nowMillis: nat, expiresIn: int): (r: Option<int>)
    ensures r.Some? <==> expiresIn > 0
    ensures r.Some? ==> r.value == nowMillis / 1000 + expiresIn && r.value > nowMillis / 1000
  {
    if expiresIn > 0 then Some(nowMillis / 1000 + expiresIn) else None
  }

  predicate HasInstagramAccount(a: Account) {
    Truthy(a.instagramBusinessId)
  }

  function ToPageOption(a: Account): Session.PageOption
    requires HasInstagramAccount(a)
  {
    Session.PageOption(a.id, a.name, a.accessToken, a.instagramBusinessId.value)
  }

  /** The `filter` and `map` over the accounts. */
  function CandidatePages(accounts: seq<Account>): seq<Session.PageOption> {
    if accounts == [] then []
    else if HasInstagramAccount(accounts[0]) then [ToPageOption(accounts[0])] + CandidatePages(accounts[1..])
    else CandidatePages(accounts[1..])
  }

  /** The candidates keep the accounts' order: the candidates of a concatenation are the
      concatenation of the candidates. */
  lemma {:induction false} CandidatePagesAppend(a: seq<Account>, b: seq<Account>)
    ensures CandidatePages(a + b) == CandidatePages(a) + CandidatePages(b)
  {
    if a != [] {
      CandidatePagesAppend(a[1..], b);
      assert (a + b)[1..] == a[1..] + b;
    } else {
      assert a + b == b;
    }
  }

  /** The candidates are exactly the accounts with an Instagram business id, one page each. */
  lemma {:induction false} CandidatePagesMembers(accounts: seq<Account>, p: Session.PageOption)
    ensures p in CandidatePages(accounts) <==>
      exists i :: 0 <= i < |accounts| && HasInstagramAccount(accounts[i]) && ToPageOption(accounts[i]) == p
    ensures |CandidatePages(accounts)| <= |accounts|
    ensures forall q :: q in CandidatePages(accounts) ==> q.instagramBusinessId != ""
  {
    if accounts != [] {
      CandidatePagesMembers(accounts[1..], p);
      assert forall i :: 1 <= i < |accounts| ==> accounts[i] == accounts[1..][i - 1];
      if p in CandidatePages(accounts[1..]) {
        var i :| 0 <= i < |accounts[1..]| && HasInstagramAccount(accounts[1..][i]) && ToPageOption(accounts[1..][i]) == p;
        assert accounts[i + 1] == accounts[1..][i];
      }
    }
  }

  /** The three ways the login can end once the candidate pages are known. */
  datatype PageChoice =
    | NoCandidates
    | SinglePage(session: Session.FacebookSession)
    | ManyPages(pending: Session.PendingSession)

  /** The session a chosen page gives: the user token and expiry, and the page's fields. */
  function SessionFor(userAccessToken: string, page: Session.PageOption, expiresAt: Option<int>): Session.FacebookSession {
    Session.FacebookSession(userAccessToken, page.pageAccessToken, page.pageId, page.pageName,
                            page.instagramBusinessId, expiresAt)
  }

  /** The 0 / 1 / many branch. */
  function ChoosePage(userAccessToken: string, expiresAt: Option<int>, candidates: seq<Session.PageOption>): (c: PageChoice)
    ensures c.NoCandidates? <==> |candidates| == 0
    ensures c.SinglePage? <==> |candidates| == 1
    ensures c.ManyPages? <==> |candidates| > 1
    ensures c.SinglePage? ==>
      && c.session.userAccessToken == userAccessToken && c.session.expiresAt == expiresAt
      && c.session.pageId == candidates[0].pageId && c.session.pageName == candidates[0].pageName
      && c.session.pageAccessToken == candidates[0].pageAccessToken
      && c.session.instagramBusinessId == candidates[0].instagramBusinessId
    ensures c.ManyPages? ==> c.pending == Session.PendingSession(userAccessToken, candidates, expiresAt)
  {
    if |candidates| == 0 then NoCandidates
    else if |candidates| == 1 then SinglePage(SessionFor(userAccessToken, candidates[0], expiresAt))
    else ManyPages(Session.PendingSession(userAccessToken, candidates, expiresAt))
  }

  // ---------------------------------------------------------------------------
  // The handler
  // ---------------------------------------------------------------------------

  /** The environment, the platform's URL parser and the two Graph calls the handler depends on. */
  datatype Context = Context(
    env: map<string, string>,
    parseUrl: string -> Option<Http.Url>,
    resolveUrl: (string, string) -> Option<Http.Url>,
    exchangeCode: TokenRequest -> TokenReply,
    fetchAccounts: string -> Option<seq<Account>>,
    nowMillis: nat)

  function Origin(request: Http.Request, ctx: Context): string {
    RequestOrigin.ResolveRequestOrigin(request, ctx.env, ctx.parseUrl)
  }

  function RedirectUriOf(request: Http.Request, ctx: Context): Option<string> {
    RedirectUri(Origin(request, ctx), Http.EnvGet(ctx.env, FACEBOOK_REDIRECT_URI), ctx.resolveUrl)
  }

  /** The token request the handler makes, if it gets that far: only with credentials, a redirect URI
      and a passed state check. */
  function TokenRequestOf(request: Http.Request, ctx: Context): (r: Option<TokenRequest>)
    ensures r.Some? <==>
      (CredentialsConfigured(ctx.env) && RedirectUriOf(request, ctx).Some?
       && StateMatches(Http.FirstValue(request.url.query, "code"), Http.FirstValue(request.url.query, "state"),
                       Session.ReadState(request.cookies)))
    ensures r.Some? ==>
      r.value == TokenRequest(Http.EnvGet(ctx.env, FACEBOOK_APP_ID).value, RedirectUriOf(request, ctx).value,
                              Http.EnvGet(ctx.env, FACEBOOK_APP_SECRET).value,
                              Http.FirstValue(request.url.query, "code").value)
  {
    var code := Http.FirstValue(request.url.query, "code");
    var state := Http.FirstValue(request.url.query, "state");
    if !CredentialsConfigured(ctx.env) || RedirectUriOf(request, ctx).None?
       || !StateMatches(code, state, Session.ReadState(request.cookies)) then None
    else
      Some(TokenRequest(Http.EnvGet(ctx.env, FACEBOOK_APP_ID).value, RedirectUriOf(request, ctx).value,
                        Http.EnvGet(ctx.env, FACEBOOK_APP_SECRET).value, code.value))
  }

  /** The redirect back to the home page with an `error` query parameter. */
  function ErrorUrl(origin: string, error: string): string {
    origin + "/?error=" + error
  }

  function ErrorRedirect(origin: string, error: string): (r: Http.Outcome)
    ensures r.Redirect? && r.setCookies == []
  {
    Http.Redirect(ErrorUrl(origin, error), [])
  }

  /** The answer once the candidate pages are known: the redirect and the cookies set, in order. */
  function ChoiceOutcome(origin: string, production: bool, choice: PageChoice): (r: Http.Outcome)
    ensures r.Redirect?
  {
    match choice
    case NoCandidates => ErrorRedirect(origin, "no_instagram_account")
    case SinglePage(session) =>
      Http.Redirect(origin + "/?connected=1",
        [Session.ClearCookie(Session.STATE_COOKIE, production),
         Session.ClearCookie(Session.PENDING_SESSION_COOKIE, production),
         Session.SessionCookie(session, production)])
    case ManyPages(pending) =>
      Http.Redirect(origin + "/select-page",
        [Session.ClearCookie(Session.STATE_COOKIE, production),
         Session.ClearCookie(Session.SESSION_COOKIE, production),
         Session.PendingSessionCookie(pending, production)])
  }

  /** The answer once the code has been exchanged for a user token. */
  function GrantedOutcome(origin: string, production: bool, ctx: Context, userAccessToken: string, expiresIn: int): (r: Http.Outcome)
    ensures r.Redirect?
    ensures ctx.fetchAccounts(userAccessToken).None? ==> r == ErrorRedirect(origin, "accounts_fetch_failed")
    ensures ctx.fetchAccounts(userAccessToken).Some? ==>
      r == ChoiceOutcome(origin, production,
                         ChoosePage(userAccessToken, ExpiresAt(ctx.nowMillis, expiresIn),
                                    CandidatePages(ctx.fetchAccounts(userAccessToken).value)))
  {
    match ctx.fetchAccounts(userAccessToken)
    case None => ErrorRedirect(origin, "accounts_fetch_failed")
    case Some(accounts) =>
      ChoiceOutcome(origin, production, ChoosePage(userAccessToken, ExpiresAt(ctx.nowMillis, expiresIn), CandidatePages(accounts)))
  }

  /** What the handler answers. */
  function CallbackOutcome(request: Http.Request, ctx: Context): (r: Http.Outcome)
    ensures r.JsonError? <==> !CredentialsConfigured(ctx.env)
    ensures r.JsonError? ==> r.status == 500
    ensures r.Thrown? <==> CredentialsConfigured(ctx.env) && RedirectUriOf(request, ctx).None?
    ensures (CredentialsConfigured(ctx.env) && RedirectUriOf(request, ctx).Some? && TokenRequestOf(request, ctx).None?)
      ==> r == ErrorRedirect(Origin(request, ctx), "oauth_state_mismatch")
    ensures r.Redirect? && r.setCookies != [] ==> TokenRequestOf(request, ctx).Some?
    ensures TokenRequestOf(request, ctx).Some? && ctx.exchangeCode(TokenRequestOf(request, ctx).value).TokenRefused?
      ==> r == ErrorRedirect(Origin(request, ctx), "token_exchange_failed")
    ensures TokenRequestOf(request, ctx).Some? && ctx.exchangeCode(TokenRequestOf(request, ctx).value).TokenGranted?
      ==> r == GrantedOutcome(Origin(request, ctx), Session.IsProduction(Http.EnvGet(ctx.env, NODE_ENV)), ctx,
                              ctx.exchangeCode(TokenRequestOf(request, ctx).value).accessToken,
                              ctx.exchangeCode(TokenRequestOf(request, ctx).value).expiresIn)
  {
    if !CredentialsConfigured(ctx.env) then Http.JsonError(500, "Facebook app credentials are not configured")
    else
      var origin := Origin(request, ctx);
      if RedirectUriOf(request, ctx).None? then Http.Thrown
      else match TokenRequestOf(request, ctx)
      case None => ErrorRedirect(origin, "oauth_state_mismatch")
      case Some(tokenRequest) =>
        match ctx.exchangeCode(tokenRequest)
        case TokenRefused => ErrorRedirect(origin, "token_exchange_failed")
        case TokenGranted(userAccessToken, expiresIn) =>
          GrantedOutcome(origin, Session.IsProduction(Http.EnvGet(ctx.env, NODE_ENV)), ctx, userAccessToken, expiresIn)
  }

  /** The response for a page choice, its cookie headers appended one by one. */
  method RespondToChoice(origin: string, nodeEnv: Option<string>, choice: PageChoice) returns (response: Http.Response)
    ensures fresh(response)
    ensures response.Answers(ChoiceOutcome(origin, Session.IsProduction(nodeEnv), choice))
  {
    if choice.NoCandidates? {
      response := new Http.Response.Redirect(ErrorUrl(origin, "no_instagram_account"));
    } else if choice.SinglePage? {
      response := SignIn(origin, nodeEnv, choice.session);
    } else {
      response := AskForPage(origin, nodeEnv, choice.pending);
    }
  }

  /** One candidate: clear the state and pending cookies, then store the session. */
  method SignIn(origin: string, nodeEnv: Option<string>, session: Session.FacebookSession) returns (response: Http.Response)
    ensures fresh(response)
    ensures response.Answers(ChoiceOutcome(origin, Session.IsProduction(nodeEnv), SinglePage(session)))
  {
    response := new Http.Response.Redirect(origin + "/?connected=1");
    Session.ClearStateCookie(response, nodeEnv);
    Session.ClearPendingSessionCookie(response, nodeEnv);
    Session.WithSessionCookie(response, session, nodeEnv);
  }

  /** Several candidates: clear the state and session cookies, then store the pending session. */
  method AskForPage(origin: string, nodeEnv: Option<string>, pending: Session.PendingSession) returns (response: Http.Response)
    ensures fresh(response)
    ensures response.Answers(ChoiceOutcome(origin, Session.IsProduction(nodeEnv), ManyPages(pending)))
  {
    response := new Http.Response.Redirect(origin + "/select-page");
    Session.ClearStateCookie(response, nodeEnv);
    Session.ClearSessionCookie(response, nodeEnv);
    Session.WithPendingSessionCookie(response, pending, nodeEnv);
  }

  /** `GET`: each step in the source's order. `tokenRequest` is the code exchange it performed, if any. */
  method HandleCallback(request: Http.Request, ctx: Context)
    returns (response: Http.Response, tokenRequest: Option<TokenRequest>)
    ensures fresh(response)
    ensures response.Answers(CallbackOutcome(request, ctx))
    ensures tokenRequest == TokenRequestOf(request, ctx)
  {
    if !CredentialsConfigured(ctx.env) {
      response := new Http.Response.Json("Facebook app credentials are not configured", 500);
      tokenRequest := None;
      return;
    }
    var origin := Origin(request, ctx);
    var nodeEnv := Http.EnvGet(ctx.env, NODE_ENV);
    var redirectUri := RedirectUri(origin, Http.EnvGet(ctx.env, FACEBOOK_REDIRECT_URI), ctx.resolveUrl);
    if redirectUri.None? {
      response := new Http.Response.Unhandled();
      tokenRequest := None;
      return;
    }
    var code := Http.FirstValue(request.url.query, "code");
    var state := Http.FirstValue(request.url.query, "state");
    if !StateMatches(code, state, Session.ReadState(request.cookies)) {
      response := new Http.Response.Redirect(ErrorUrl(origin, "oauth_state_mismatch"));
      tokenRequest := None;
      return;
    }
    tokenRequest := Some(TokenRequest(Http.EnvGet(ctx.env, FACEBOOK_APP_ID).value, redirectUri.value,
                                      Http.EnvGet(ctx.env, FACEBOOK_APP_SECRET).value, code.value));
    var reply := ctx.exchangeCode(tokenRequest.value);
    if reply.TokenRefused? {
      response := new Http.Response.Redirect(ErrorUrl(origin, "token_exchange_failed"));
      return;
    }
    response := AfterTokenGranted(origin, nodeEnv, ctx, reply.accessToken, reply.expiresIn);
  }

  /** The steps after the code exchange: the accounts, the candidate pages and the page choice. */
  method AfterTokenGranted(origin: string, nodeEnv: Option<string>, ctx: Context, userAccessToken: string, expiresIn: int)
    returns (response: Http.Response)
    ensures fresh(response)
    ensures response.Answers(GrantedOutcome(origin, Session.IsProduction(nodeEnv), ctx, userAccessToken, expiresIn))
  {
    var accounts := ctx.fetchAccounts(userAccessToken);
    if accounts.None? {
      response := new Http.Response.Redirect(ErrorUrl(origin, "accounts_fetch_failed"));
      return;
    }
    var expiresAt := ExpiresAt(ctx.nowMillis, expiresIn);
    var choice := ChoosePage(userAccessToken, expiresAt, CandidatePages(accounts.value));
    response := RespondToChoice(origin, nodeEnv, choice);
  }

  // ---------------------------------------------------------------------------
  // Properties of the handler
  // ---------------------------------------------------------------------------

  /** Without app credentials the handler answers 500 before looking at anything else. */
  lemma MissingCredentialsFirst(request: Http.Request, ctx: Context)
    requires !CredentialsConfigured(ctx.env)
    ensures CallbackOutcome(request, ctx) == Http.JsonError(500, "Facebook app credentials are not configured")
    ensures TokenRequestOf(request, ctx) == None
  {
  }

  /** A failed state check redirects with `oauth_state_mismatch`, sets no cookie and exchanges no code,
      whatever the token endpoint would have said. */
  lemma StateMismatchRejected(request: Http.Request, ctx: Context, otherExchange: TokenRequest -> TokenReply)
    requires CredentialsConfigured(ctx.env) && RedirectUriOf(request, ctx).Some?
    requires !StateMatches(Http.FirstValue(request.url.query, "code"), Http.FirstValue(request.url.query, "state"),
                           Session.ReadState(request.cookies))
    ensures CallbackOutcome(request, ctx) == Http.Redirect(ErrorUrl(Origin(request, ctx), "oauth_state_mismatch"), [])
    ensures TokenRequestOf(request, ctx) == None
    ensures CallbackOutcome(request, ctx.(exchangeCode := otherExchange)) == CallbackOutcome(request, ctx)
  {
  }

  /** A login that reaches the page choice: no candidate sets no cookie; one candidate clears the
      state and pending cookies and then sets the session cookie; several clear the state and session
      cookies, set the pending cookie holding every candidate, and send the user to `/select-page`. */
  lemma PageChoiceEffects(request: Http.Request, ctx: Context, userAccessToken: string, expiresIn: int,
                          accounts: seq<Account>)
    requires TokenRequestOf(request, ctx).Some?
    requires ctx.exchangeCode(TokenRequestOf(request, ctx).value) == TokenGranted(userAccessToken, expiresIn)
    requires ctx.fetchAccounts(userAccessToken) == Some(accounts)
    ensures var origin := Origin(request, ctx);
      var production := Session.IsProduction(Http.EnvGet(ctx.env, NODE_ENV));
      var candidates := CandidatePages(accounts);
      var expiresAt := ExpiresAt(ctx.nowMillis, expiresIn);
      var outcome := CallbackOutcome(request, ctx);
      && (|candidates| == 0 ==> outcome == Http.Redirect(ErrorUrl(origin, "no_instagram_account"), []))
      && (|candidates| == 1 ==>
            outcome == Http.Redirect(origin + "/?connected=1",
              [Session.ClearCookie(Session.STATE_COOKIE, production),
               Session.ClearCookie(Session.PENDING_SESSION_COOKIE, production),
               Session.SessionCookie(SessionFor(userAccessToken, candidates[0], expiresAt), production)]))
      && (|candidates| > 1 ==>
            outcome == Http.Redirect(origin + "/select-page",
              [Session.ClearCookie(Session.STATE_COOKIE, production),
               Session.ClearCookie(Session.SESSION_COOKIE, production),
               Session.PendingSessionCookie(Session.PendingSession(userAccessToken, candidates, expiresAt), production)]))
  {
  }

  /** The cookie a one-page login sets decodes to that page's session. */
  lemma SinglePageSessionCookieDecodes(userAccessToken: string, page: Session.PageOption, expiresAt: Option<int>)
    ensures Session.DecodeSession(Some(Session.EncodeSession(SessionFor(userAccessToken, page, expiresAt))))
      == Some(Session.FacebookSession(userAccessToken, page.pageAccessToken, page.pageId, page.pageName,
                                      page.instagramBusinessId, expiresAt))
  {
    Session.DecodeEncodeSession(SessionFor(userAccessToken, page, expiresAt));
  }

  /** A one-page login stores a session for an account `/me/accounts` listed with an Instagram business
      account, with that account's page id, name and page token. */
  lemma {:induction false} SinglePageIsListedAccount(userAccessToken: string, expiresAt: Option<int>, accounts: seq<Account>,
                                  session: Session.FacebookSession)
    requires ChoosePage(userAccessToken, expiresAt, CandidatePages(accounts)) == SinglePage(session)
    ensures session.instagramBusinessId != ""
    ensures exists i :: (0 <= i < |accounts| && accounts[i].id == session.pageId && accounts[i].name == session.pageName
                         && accounts[i].accessToken == session.pageAccessToken
                         && accounts[i].instagramBusinessId == Some(session.instagramBusinessId))
  {
    var candidates := CandidatePages(accounts);
    assert |candidates| == 1;
    CandidatePagesMembers(accounts, candidates[0]);
    assert candidates[0] in candidates;
  }
}
