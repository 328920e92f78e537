/** The page-selection handler (app/api/facebook/select-page/route.ts): the second half of a login whose
    user manages several Instagram-linked pages. */
module SelectPage {
  import opened Wrappers
  import opened Text
  import Http
  import Session
  import RequestOrigin
  import Callback

  /** A value of a JSON field or a form entry: a string, or anything else (a number, an object, a file). */
  datatype FieldValue = Text(text: string) | NotText

  /** What the request body yields when read as JSON (`None` when it does not parse; the fields of the
      top-level object, none when it is not an object) and when read as form data (its entries, in order). */
  datatype RequestBody = RequestBody(json: Option<map<string, FieldValue>>, form: seq<(string, FieldValue)>)

  function StringValue(v: Option<FieldValue>): Option<string> {
    if v.Some? && v.value.Text? then Some(v.value.text) else None
  }

  const JSON_TYPE: string := "application/json"
  const URLENCODED_TYPE: string := "application/x-www-form-urlencoded"
  const MULTIPART_TYPE: string := "multipart/form-data"

  /** `extractPageId`: the content type decides how the body is read; only a string `pageId` is kept. */
  function ExtractPageId(contentType: Option<string>, body: RequestBody): (pageId: Option<string>)
    ensures var ct := if Truthy(contentType) then contentType.value else "";
      && (Contains(ct, JSON_TYPE) ==>
            pageId == (if body.json.Some? && "pageId" in body.json.value
                       then StringValue(Some(body.json.value["pageId"])) else None))
      && (!Contains(ct, JSON_TYPE) && (Contains(ct, URLENCODED_TYPE) || Contains(ct, MULTIPART_TYPE)) ==>
            pageId == StringValue(Http.FirstValue(body.form, "pageId")))
      && (!Contains(ct, JSON_TYPE) && !Contains(ct, URLENCODED_TYPE) && !Contains(ct, MULTIPART_TYPE) ==>
            pageId == None)
  {
    var ct := if Truthy(contentType) then contentType.value else "";
    if Contains(ct, JSON_TYPE) then
      match body.json
      case None => None
      case Some(fields) => if "pageId" in fields then StringValue(Some(fields["pageId"])) else None
    else if Contains(ct, URLENCODED_TYPE) || Contains(ct, MULTIPART_TYPE) then
      StringValue(Http.FirstValue(body.form, "pageId"))
    else None
  }

  /** `pages.find(page => page.pageId === pageId)`, as the index of the first match. */
  function FindPage(pages: seq<Session.PageOption>, pageId: string): (k: Option<nat>)
    ensures k.None? <==> forall j :: 0 <= j < |pages| ==> pages[j].pageId != pageId
    ensures k.Some? ==>
      k.value < |pages| && pages[k.value].pageId == pageId
      && forall j :: 0 <= j < k.value ==> pages[j].pageId != pageId
  {
    if pages == [] then None
    else if pages[0].pageId == pageId then Some(0)
    else
      var rest := FindPage(pages[1..], pageId);
      assert forall j :: 1 <= j < |pages| ==> pages[j] == pages[1..][j - 1];
      if rest.None? then None else Some(rest.value + 1)
  }

  /** The environment, the platform's URL parser and the request body. */
  datatype Context = Context(env: map<string, string>, parseUrl: string -> Option<Http.Url>, body: RequestBody)

  function Origin(request: Http.Request, ctx: Context): string {
    RequestOrigin.ResolveRequestOrigin(request, ctx.env, ctx.parseUrl)
  }

  function ConnectedUrl(origin: string): string {
    origin + "/?connected=1"
  }

  /** The decision `POST` makes: the session to store, or the error code to redirect with. */
  function Selection(request: Http.Request, ctx: Context): (r: Result<Session.FacebookSession, string>)
    ensures r == Err("pending_session_expired") <==> Session.ReadPendingSession(request.cookies).None?
    ensures r.Err? ==> r.error == "pending_session_expired" || r.error == "page_selection_invalid"
    ensures r.Ok? ==>
      var pending := Session.ReadPendingSession(request.cookies);
      var pageId := ExtractPageId(Http.HeaderGet(request, "content-type"), ctx.body);
      && pending.Some? && Truthy(pageId)
      && r.value.pageId == pageId.value
      && r.value.userAccessToken == pending.value.userAccessToken
      && r.value.expiresAt == pending.value.expiresAt
  {
    match Session.ReadPendingSession(request.cookies)
    case None => Err("pending_session_expired")
    case Some(pending) =>
      var pageId := ExtractPageId(Http.HeaderGet(request, "content-type"), ctx.body);
      if !Truthy(pageId) then Err("page_selection_invalid")
      else match FindPage(pending.pages, pageId.value)
        case None => Err("page_selection_invalid")
        case Some(k) => Ok(Callback.SessionFor(pending.userAccessToken, pending.pages[k], pending.expiresAt))
  }

  /** What `POST` answers: an expired pending session and an invalid choice redirect with an error and
      set no cookie; a valid choice clears the pending cookie and then stores the chosen page's session. */
  function SelectOutcome(request: Http.Request, ctx: Context): (r: Http.Outcome)
    ensures r.Redirect?
    ensures r.setCookies == [] <==> Selection(request, ctx).Err?
    ensures Selection(request, ctx).Err? ==>
      r.location == Callback.ErrorUrl(Origin(request, ctx), Selection(request, ctx).error)
    ensures Selection(request, ctx).Ok? ==>
      r.location == ConnectedUrl(Origin(request, ctx))
      && |r.setCookies| == 2
      && r.setCookies[0] == Session.ClearCookie(Session.PENDING_SESSION_COOKIE, Session.IsProduction(Http.EnvGet(ctx.env, Callback.NODE_ENV)))
      && r.setCookies[1] == Session.SessionCookie(Selection(request, ctx).value, Session.IsProduction(Http.EnvGet(ctx.env, Callback.NODE_ENV)))
  {
    var origin := Origin(request, ctx);
    match Selection(request, ctx)
    case Err(code) => Http.Redirect(Callback.ErrorUrl(origin, code), [])
    case Ok(session) => SignedInOutcome(origin, session, Session.IsProduction(Http.EnvGet(ctx.env, Callback.NODE_ENV)))
  }

  /** A valid selection: the pending cookie is cleared, then the session cookie is set. */
  function SignedInOutcome(origin: string, session: Session.FacebookSession, production: bool): Http.Outcome {
    Http.Redirect(ConnectedUrl(origin),
      [Session.ClearCookie(Session.PENDING_SESSION_COOKIE, production), Session.SessionCookie(session, production)])
  }

  /** The success branch of `POST`: redirect home, clear the pending cookie, store the session. */
  method SignIn(origin: string, session: Session.FacebookSession, nodeEnv: Option<string>)
    returns (response: Http.Response)
    ensures fresh(response)
    ensures response.Answers(SignedInOutcome(origin, session, Session.IsProduction(nodeEnv)))
  {
    response := new Http.Response.Redirect(ConnectedUrl(origin));
    Session.ClearPendingSessionCookie(response, nodeEnv);
    Session.WithSessionCookie(response, session, nodeEnv);
  }

  /** `POST`: each check in the source's order, then the two cookie headers appended in place. */
  method Select(request: Http.Request, ctx: Context) returns (response: Http.Response)
    ensures fresh(response)
    ensures response.Answers(SelectOutcome(request, ctx))
  {
    var origin := Origin(request, ctx);
    var pending := Session.ReadPendingSession(request.cookies);
    if pending.None? {
      response := new Http.Response.Redirect(Callback.ErrorUrl(origin, "pending_session_expired"));
      return;
    }
    var pageId := ExtractPageId(Http.HeaderGet(request, "content-type"), ctx.body);
    if !Truthy(pageId) {
      response := new Http.Response.Redirect(Callback.ErrorUrl(origin, "page_selection_invalid"));
      return;
    }
    var k := FindPage(pending.value.pages, pageId.value);
    if k.None? {
      response := new Http.Response.Redirect(Callback.ErrorUrl(origin, "page_selection_invalid"));
      return;
    }
    var session := Callback.SessionFor(pending.value.userAccessToken, pending.value.pages[k.value], pending.value.expiresAt);
    response := SignIn(origin, session, Http.EnvGet(ctx.env, Callback.NODE_ENV));
  }

  // ---------------------------------------------------------------------------
  // Properties of the handler
  // ---------------------------------------------------------------------------

  /** The stored session never names a page that was not offered: its page is the first pending page
      with the submitted id, and the user token and expiry are the pending session's. */
  lemma SelectedPageWasOffered(request: Http.Request, ctx: Context)
    requires Selection(request, ctx).Ok?
    ensures var pending := Session.ReadPendingSession(request.cookies);
      var pageId := ExtractPageId(Http.HeaderGet(request, "content-type"), ctx.body);
      && pending.Some? && Truthy(pageId)
      && (exists k :: (0 <= k < |pending.value.pages| && pending.value.pages[k].pageId == pageId.value
                        && (forall j :: 0 <= j < k ==> pending.value.pages[j].pageId != pageId.value)
                        && Selection(request, ctx).value
                             == Callback.SessionFor(pending.value.userAccessToken, pending.value.pages[k],
                                                    pending.value.expiresAt)))
  {
    var pending := Session.ReadPendingSession(request.cookies);
    var pageId := ExtractPageId(Http.HeaderGet(request, "content-type"), ctx.body);
    var k := FindPage(pending.value.pages, pageId.value);
    assert k.Some?;
  }

  /** Only a stored selection sets cookies: every refusal redirects with an error code and no cookie. */
  lemma RefusalSetsNoCookie(request: Http.Request, ctx: Context)
    ensures Selection(request, ctx).Err? ==>
      SelectOutcome(request, ctx) == Http.Redirect(Callback.ErrorUrl(Origin(request, ctx), Selection(request, ctx).error), [])
    ensures Selection(request, ctx).Ok? ==>
      SelectOutcome(request, ctx).Redirect? && |SelectOutcome(request, ctx).setCookies| == 2
  {
  }

  /** An empty submitted id is refused even when a pending page has an empty id. */
  lemma EmptyPageIdRejected(request: Http.Request, ctx: Context)
    requires Session.ReadPendingSession(request.cookies).Some?
    requires ExtractPageId(Http.HeaderGet(request, "content-type"), ctx.body) == Some("")
    ensures Selection(request, ctx) == Err("page_selection_invalid")
  {
  }

  /** The two halves of a multi-page login fit together: the pending session the callback stores,
      sent back with the id of one of its candidate pages, yields the same session a login offering
      only that page would have stored directly. */
  lemma SelectingACandidateSignsIn(request: Http.Request, ctx: Context, pending: Session.PendingSession, k: nat)
    requires Session.CookieGet(request.cookies, Session.PENDING_SESSION_COOKIE) == Some(Session.EncodePendingSession(pending))
    requires k < |pending.pages| && forall j :: 0 <= j < k ==> pending.pages[j].pageId != pending.pages[k].pageId
    requires pending.pages[k].pageId != ""
    requires ExtractPageId(Http.HeaderGet(request, "content-type"), ctx.body) == Some(pending.pages[k].pageId)
    ensures var single := Callback.ChoosePage(pending.userAccessToken, pending.expiresAt, [pending.pages[k]]);
      single.SinglePage? && Selection(request, ctx) == Ok(single.session)
  {
    Session.DecodeEncodePendingSession(pending);
    var found := FindPage(pending.pages, pending.pages[k].pageId);
    assert found.Some?;
    assert found == Some(k);
  }
}
