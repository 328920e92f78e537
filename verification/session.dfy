/** The session bundle kept in cookies (lib/facebookSession.ts): its encoding into a cookie
    value, the defensive decoding, and the `Set-Cookie` header strings of section 4.1 of
    RFC 6265 that the handlers append. */
module Session {
  import opened Wrappers
  import opened Text
  import Codec
  import Http

  datatype FacebookSession = FacebookSession(
    userAccessToken: string,
    pageAccessToken: string,
    pageId: string,
    pageName: string,
    instagramBusinessId: string,
    expiresAt: Option<int>)

  datatype PageOption = PageOption(
    pageId: string,
    pageName: string,
    pageAccessToken: string,
    instagramBusinessId: string)

  datatype PendingSession = PendingSession(
    userAccessToken: string,
    pages: seq<PageOption>,
    expiresAt: Option<int>)

  const SESSION_COOKIE: string := "fb_auth"
  const STATE_COOKIE: string := "fb_oauth_state"
  const PENDING_SESSION_COOKIE: string := "fb_pending_session"

  /** One day, the lifetime of the session cookie. */
  const SESSION_MAX_AGE: nat := 60 * 60 * 24
  /** Ten minutes, the lifetime of the pending-session and state cookies. */
  const SHORT_MAX_AGE: nat := 10 * 60

  // ---------------------------------------------------------------------------
  // Cookie values
  // ---------------------------------------------------------------------------

  function EncodeSession(s: FacebookSession): (v: string)
    ensures v != []
  {
    Codec.EncodeString(s.userAccessToken) + (Codec.EncodeString(s.pageAccessToken) + (Codec.EncodeString(s.pageId)
      + (Codec.EncodeString(s.pageName) + (Codec.EncodeString(s.instagramBusinessId) + Codec.EncodeOptInt(s.expiresAt)))))
  }

  /** Reads a session back; any value that is not a whole encoding yields nothing. */
  function DecodeSessionText(v: string): Option<FacebookSession> {
    var (user, r1) :- Codec.DecodeString(v);
    var (pageToken, r2) :- Codec.DecodeString(r1);
    var (pageId, r3) :- Codec.DecodeString(r2);
    var (pageName, r4) :- Codec.DecodeString(r3);
    var (igId, r5) :- Codec.DecodeString(r4);
    var (expiresAt, r6) :- Codec.DecodeOptInt(r5);
    if r6 == [] then Some(FacebookSession(user, pageToken, pageId, pageName, igId, expiresAt)) else None
  }

  /** `decodeSession`: no session for a missing or empty cookie value, nor for one that does not decode. */
  function DecodeSession(value: Option<string>): (r: Option<FacebookSession>)
    ensures !Truthy(value) ==> r == None
  {
    if !Truthy(value) then None else DecodeSessionText(value.value)
  }

  lemma DecodeEncodeSession(s: FacebookSession)
    ensures DecodeSession(Some(EncodeSession(s))) == Some(s)
  {
    var e5 := Codec.EncodeOptInt(s.expiresAt);
    var e4 := Codec.EncodeString(s.instagramBusinessId) + e5;
    var e3 := Codec.EncodeString(s.pageName) + e4;
    var e2 := Codec.EncodeString(s.pageId) + e3;
    var e1 := Codec.EncodeString(s.pageAccessToken) + e2;
    Codec.DecodeEncodeString(s.userAccessToken, e1);
    Codec.DecodeEncodeString(s.pageAccessToken, e2);
    Codec.DecodeEncodeString(s.pageId, e3);
    Codec.DecodeEncodeString(s.pageName, e4);
    Codec.DecodeEncodeString(s.instagramBusinessId, e5);
    Codec.DecodeEncodeOptInt(s.expiresAt, []);
    assert e5 + [] == e5;
  }

  /** The session's cookie value uses only base64url characters. */
  lemma EncodeSessionUrlSafe(s: FacebookSession)
    ensures Codec.UrlSafe(EncodeSession(s))
  {
    var e5 := Codec.EncodeOptInt(s.expiresAt);
    var e4 := Codec.EncodeString(s.instagramBusinessId) + e5;
    var e3 := Codec.EncodeString(s.pageName) + e4;
    var e2 := Codec.EncodeString(s.pageId) + e3;
    var e1 := Codec.EncodeString(s.pageAccessToken) + e2;
    Codec.EncodeOptIntUrlSafe(s.expiresAt);
    Codec.EncodeStringUrlSafe(s.instagramBusinessId, e5);
    Codec.EncodeStringUrlSafe(s.pageName, e4);
    Codec.EncodeStringUrlSafe(s.pageId, e3);
    Codec.EncodeStringUrlSafe(s.pageAccessToken, e2);
    Codec.EncodeStringUrlSafe(s.userAccessToken, e1);
  }

  /** Two sessions with the same cookie value are the same session. */
  lemma EncodeSessionInjective(a: FacebookSession, b: FacebookSession)
    requires EncodeSession(a) == EncodeSession(b)
    ensures a == b
  {
    DecodeEncodeSession(a);
    DecodeEncodeSession(b);
  }

  function EncodePage(p: PageOption): string {
    Codec.EncodeString(p.pageId) + (Codec.EncodeString(p.pageName)
      + (Codec.EncodeString(p.pageAccessToken) + Codec.EncodeString(p.instagramBusinessId)))
  }

  function DecodePage(v: string): (r: Option<(PageOption, string)>)
    ensures r.Some? ==> |r.value.1| < |v|
  {
    var (pageId, r1) :- Codec.DecodeString(v);
    var (pageName, r2) :- Codec.DecodeString(r1);
    var (token, r3) :- Codec.DecodeString(r2);
    var (igId, r4) :- Codec.DecodeString(r3);
    Some((PageOption(pageId, pageName, token, igId), r4))
  }

  /** Decoding a page is decoding its four strings one after another. */
  lemma DecodePageSteps(v: string, p: PageOption, r1: string, r2: string, r3: string, r4: string)
    requires Codec.DecodeString(v) == Some((p.pageId, r1))
    requires Codec.DecodeString(r1) == Some((p.pageName, r2))
    requires Codec.DecodeString(r2) == Some((p.pageAccessToken, r3))
    requires Codec.DecodeString(r3) == Some((p.instagramBusinessId, r4))
    ensures DecodePage(v) == Some((p, r4))
  {
  }

  /** Appending to a right-nested concatenation of four pieces nests the tail into the last piece. */
  lemma ConcatRegroup(a: string, b: string, c: string, d: string, rest: string)
    ensures (a + (b + (c + d))) + rest == a + (b + (c + (d + rest)))
  {
    assert (c + d) + rest == c + (d + rest);
    assert (b + (c + d)) + rest == b + ((c + d) + rest);
    assert (a + (b + (c + d))) + rest == a + ((b + (c + d)) + rest);
  }

  lemma DecodeEncodePage(p: PageOption, rest: string)
    ensures DecodePage(EncodePage(p) + rest) == Some((p, rest))
  {
    var e3 := Codec.EncodeString(p.instagramBusinessId) + rest;
    var e2 := Codec.EncodeString(p.pageAccessToken) + e3;
    var e1 := Codec.EncodeString(p.pageName) + e2;
    var v := EncodePage(p) + rest;
    ConcatRegroup(Codec.EncodeString(p.pageId), Codec.EncodeString(p.pageName), Codec.EncodeString(p.pageAccessToken),
                  Codec.EncodeString(p.instagramBusinessId), rest);
    Codec.DecodeEncodeString(p.pageId, e1);
    Codec.DecodeEncodeString(p.pageName, e2);
    Codec.DecodeEncodeString(p.pageAccessToken, e3);
    Codec.DecodeEncodeString(p.instagramBusinessId, rest);
    DecodePageSteps(v, p, e1, e2, e3, rest);
  }

  /** A list of pages: 'p' before each page, 'z' after the last. */
  function EncodePages(ps: seq<PageOption>): (v: string)
    ensures |v| >= 1
  {
    if ps == [] then "z" else "p" + EncodePage(ps[0]) + EncodePages(ps[1..])
  }

  function DecodePages(v: string): (r: Option<(seq<PageOption>, string)>)
    ensures r.Some? ==> |r.value.1| < |v|
    decreases |v|
  {
    if |v| == 0 then None
    else if v[0] == 'z' then Some(([], v[1..]))
    else if v[0] != 'p' then None
    else
      var (page, r1) :- DecodePage(v[1..]);
      var (more, r2) :- DecodePages(r1);
      Some(([page] + more, r2))
  }

  /** One step of the list encoding: 'p', the first page, then the rest of the list. */
  lemma EncodePagesCons(ps: seq<PageOption>, rest: string)
    requires ps != []
    ensures EncodePages(ps) + rest == ['p'] + (EncodePage(ps[0]) + (EncodePages(ps[1..]) + rest))
  {
  }

  /** One step of the list decoding: a 'p', a page, then the rest of the list. */
  lemma DecodePagesCons(v: string, page: PageOption, r1: string, more: seq<PageOption>, r2: string)
    requires |v| > 0 && v[0] == 'p'
    requires DecodePage(v[1..]) == Some((page, r1))
    requires DecodePages(r1) == Some((more, r2))
    ensures DecodePages(v) == Some(([page] + more, r2))
  {
  }

  lemma {:induction false} DecodeEncodePages(ps: seq<PageOption>, rest: string)
    ensures DecodePages(EncodePages(ps) + rest) == Some((ps, rest))
    decreases |ps|
  {
    var v := EncodePages(ps) + rest;
    if ps == [] {
      assert v[0] == 'z' && v[1..] == rest;
    } else {
      var tail := EncodePages(ps[1..]) + rest;
      EncodePagesCons(ps, rest);
      assert v[1..] == EncodePage(ps[0]) + tail;
      DecodeEncodePage(ps[0], tail);
      DecodeEncodePages(ps[1..], rest);
      DecodePagesCons(v, ps[0], tail, ps[1..], rest);
      assert [ps[0]] + ps[1..] == ps;
    }
  }

  /** A page's encoding, followed by URL-safe text, is URL-safe. */
  lemma EncodePageUrlSafe(p: PageOption, more: string)
    requires Codec.UrlSafe(more)
    ensures Codec.UrlSafe(EncodePage(p) + more)
  {
    var e3 := Codec.EncodeString(p.instagramBusinessId) + more;
    var e2 := Codec.EncodeString(p.pageAccessToken) + e3;
    var e1 := Codec.EncodeString(p.pageName) + e2;
    Codec.EncodeStringUrlSafe(p.instagramBusinessId, more);
    Codec.EncodeStringUrlSafe(p.pageAccessToken, e3);
    Codec.EncodeStringUrlSafe(p.pageName, e2);
    Codec.EncodeStringUrlSafe(p.pageId, e1);
    assert EncodePage(p) + more == Codec.EncodeString(p.pageId) + e1;
  }

  /** A page list's encoding, followed by URL-safe text, is URL-safe. */
  lemma {:induction false} EncodePagesUrlSafe(ps: seq<PageOption>, more: string)
    requires Codec.UrlSafe(more)
    ensures Codec.UrlSafe(EncodePages(ps) + more)
    decreases |ps|
  {
    if ps == [] {
      Codec.UrlSafeConcat("z", more);
    } else {
      var tail := EncodePages(ps[1..]) + more;
      EncodePagesUrlSafe(ps[1..], more);
      EncodePageUrlSafe(ps[0], tail);
      EncodePagesCons(ps, more);
      Codec.UrlSafeConcat("p", EncodePage(ps[0]) + tail);
    }
  }

  function EncodePendingSession(s: PendingSession): (v: string)
    ensures v != []
  {
    Codec.EncodeString(s.userAccessToken) + (EncodePages(s.pages) + Codec.EncodeOptInt(s.expiresAt))
  }

  /** The pending session's cookie value uses only base64url characters. */
  lemma EncodePendingSessionUrlSafe(s: PendingSession)
    ensures Codec.UrlSafe(EncodePendingSession(s))
  {
    Codec.EncodeOptIntUrlSafe(s.expiresAt);
    EncodePagesUrlSafe(s.pages, Codec.EncodeOptInt(s.expiresAt));
    Codec.EncodeStringUrlSafe(s.userAccessToken, EncodePages(s.pages) + Codec.EncodeOptInt(s.expiresAt));
  }

  function DecodePendingSessionText(v: string): Option<PendingSession> {
    var (user, r1) :- Codec.DecodeString(v);
    var (pages, r2) :- DecodePages(r1);
    var (expiresAt, r3) :- Codec.DecodeOptInt(r2);
    if r3 == [] then Some(PendingSession(user, pages, expiresAt)) else None
  }

  /** `decodePendingSession`: the same defensive reading for the pending session. */
  function DecodePendingSession(value: Option<string>): (r: Option<PendingSession>)
    ensures !Truthy(value) ==> r == None
  {
    if !Truthy(value) then None else DecodePendingSessionText(value.value)
  }

  lemma DecodeEncodePendingSession(s: PendingSession)
    ensures DecodePendingSession(Some(EncodePendingSession(s))) == Some(s)
  {
    var e2 := Codec.EncodeOptInt(s.expiresAt);
    var e1 := EncodePages(s.pages) + e2;
    Codec.DecodeEncodeString(s.userAccessToken, e1);
    DecodeEncodePages(s.pages, e2);
    Codec.DecodeEncodeOptInt(s.expiresAt, []);
    assert e2 + [] == e2;
  }

  lemma EncodePendingSessionInjective(a: PendingSession, b: PendingSession)
    requires EncodePendingSession(a) == EncodePendingSession(b)
    ensures a == b
  {
    DecodeEncodePendingSession(a);
    DecodeEncodePendingSession(b);
  }

  // ---------------------------------------------------------------------------
  // Reading the cookie store
  // ---------------------------------------------------------------------------

  function CookieGet(cookies: map<string, string>, name: string): (r: Option<string>)
    ensures r.Some? <==> name in cookies
    ensures r.Some? ==> r.value == cookies[name]
  {
    if name in cookies then Some(cookies[name]) else None
  }

  /** `readSessionFromCookies`: nothing when the session cookie is missing or empty. */
  function ReadSession(cookies: map<string, string>): (r: Option<FacebookSession>)
    ensures SESSION_COOKIE !in cookies || cookies[SESSION_COOKIE] == [] ==> r == None
  {
    DecodeSession(CookieGet(cookies, SESSION_COOKIE))
  }

  /** `readPendingSessionFromCookies`: nothing when the pending cookie is missing or empty. */
  function ReadPendingSession(cookies: map<string, string>): (r: Option<PendingSession>)
    ensures PENDING_SESSION_COOKIE !in cookies || cookies[PENDING_SESSION_COOKIE] == [] ==> r == None
  {
    DecodePendingSession(CookieGet(cookies, PENDING_SESSION_COOKIE))
  }

  /** `readStateFromCookies`: the raw state value, if any. */
  function ReadState(cookies: map<string, string>): (r: Option<string>)
    ensures r.Some? <==> STATE_COOKIE in cookies
    ensures r.Some? ==> r.value == cookies[STATE_COOKIE]
  {
    CookieGet(cookies, STATE_COOKIE)
  }

  /** A session cookie written by this module reads back as the session it was written from. */
  lemma ReadWrittenSession(cookies: map<string, string>, s: FacebookSession)
    requires SESSION_COOKIE in cookies && cookies[SESSION_COOKIE] == EncodeSession(s)
    ensures ReadSession(cookies) == Some(s)
  {
    DecodeEncodeSession(s);
  }

  /** The same for the pending session cookie. */
  lemma ReadWrittenPendingSession(cookies: map<string, string>, s: PendingSession)
    requires PENDING_SESSION_COOKIE in cookies && cookies[PENDING_SESSION_COOKIE] == EncodePendingSession(s)
    ensures ReadPendingSession(cookies) == Some(s)
  {
    DecodeEncodePendingSession(s);
  }

  // ---------------------------------------------------------------------------
  // Set-Cookie header strings
  // ---------------------------------------------------------------------------

  /** `process.env.NODE_ENV === "production"`. */
  predicate IsProduction(nodeEnv: Option<string>) {
    nodeEnv == Some("production")
  }

  /** The attribute list every cookie writer builds: fixed attributes, then `Secure` in production. */
  function CookieAttributes(maxAge: nat, production: bool): (attrs: seq<string>)
    ensures |attrs| == (if production then 5 else 4)
    ensures attrs[..4] == ["Path=/", "HttpOnly", "SameSite=Lax", "Max-Age=" + NatToString(maxAge)]
    ensures "Secure" in attrs <==> production
  {
    var fixed := ["Path=/", "HttpOnly", "SameSite=Lax", "Max-Age=" + NatToString(maxAge)];
    assert |fixed[3]| > 8;
    if production then fixed + ["Secure"] else fixed
  }

  /** The attributes every cookie header starts with, in this order, up to the lifetime's digits. */
  const FIXED_ATTRIBUTES: string := "Path=/; HttpOnly; SameSite=Lax; Max-Age="

  function SecureSuffix(production: bool): string {
    if production then "; Secure" else ""
  }

  /** `${name}=${value}; ${attributes.join("; ")}`. */
  function SetCookieHeader(name: string, value: string, maxAge: nat, production: bool): (h: string)
    ensures h == name + "=" + value + "; " + FIXED_ATTRIBUTES + NatToString(maxAge) + SecureSuffix(production)
  {
    var attrs := Join(CookieAttributes(maxAge, production), "; ");
    JoinAttributes(maxAge, production);
    name + "=" + value + "; " + attrs
  }

  lemma JoinAttributes(maxAge: nat, production: bool)
    ensures Join(CookieAttributes(maxAge, production), "; ") == FIXED_ATTRIBUTES + NatToString(maxAge) + SecureSuffix(production)
  {
    var digits := NatToString(maxAge);
    var age := "Max-Age=" + digits;
    var tail := if production then [age, "Secure"] else [age];
    var attrs := CookieAttributes(maxAge, production);
    assert attrs == ["Path=/", "HttpOnly", "SameSite=Lax"] + tail;
    JoinTail(age, production);
    JoinFixed(tail);
    FixedPrefix(age + SecureSuffix(production));
    FixedSplit(digits, SecureSuffix(production));
  }

  lemma JoinTail(age: string, production: bool)
    ensures Join(if production then [age, "Secure"] else [age], "; ") == age + SecureSuffix(production)
  {
    var tail := if production then [age, "Secure"] else [age];
    if production { assert tail[1..] == ["Secure"]; }
  }

  lemma FixedSplit(digits: string, secure: string)
    ensures FIXED_ATTRIBUTES + digits + secure == "Path=/; HttpOnly; SameSite=Lax; " + ("Max-Age=" + digits + secure)
  {
    assert FIXED_ATTRIBUTES == "Path=/; HttpOnly; SameSite=Lax; " + "Max-Age=";
  }

  lemma FixedPrefix(rest: string)
    ensures "Path=/" + "; " + ("HttpOnly" + "; " + ("SameSite=Lax" + "; " + rest)) == "Path=/; HttpOnly; SameSite=Lax; " + rest
  {
  }

  lemma JoinFixed(tail: seq<string>)
    requires tail != []
    ensures Join(["Path=/", "HttpOnly", "SameSite=Lax"] + tail, "; ")
      == "Path=/" + "; " + ("HttpOnly" + "; " + ("SameSite=Lax" + "; " + Join(tail, "; ")))
  {
    JoinCons("SameSite=Lax", tail, "; ");
    JoinCons("HttpOnly", ["SameSite=Lax"] + tail, "; ");
    JoinCons("Path=/", ["HttpOnly"] + (["SameSite=Lax"] + tail), "; ");
    assert ["Path=/"] + (["HttpOnly"] + (["SameSite=Lax"] + tail)) == ["Path=/", "HttpOnly", "SameSite=Lax"] + tail;
  }

  lemma JoinCons(head: string, tail: seq<string>, sep: string)
    requires tail != []
    ensures Join([head] + tail, sep) == head + sep + Join(tail, sep)
  {
    assert ([head] + tail)[1..] == tail;
  }

  /** The digits of the two lifetimes, worked out once. */
  lemma MaxAgeDigits()
    ensures NatToString(SESSION_MAX_AGE) == "86400"
    ensures NatToString(SHORT_MAX_AGE) == "600"
    ensures NatToString(0) == "0"
  {
    assert NatToString(8) == "8";
    assert NatToString(86) == "86";
    assert NatToString(864) == "864";
    assert NatToString(8640) == "8640";
    assert NatToString(6) == "6";
    assert NatToString(60) == "60";
  }

  function SessionCookie(session: FacebookSession, production: bool): (h: string)
    ensures h == SESSION_COOKIE + "=" + EncodeSession(session) + "; " + FIXED_ATTRIBUTES + "86400" + SecureSuffix(production)
  {
    MaxAgeDigits();
    SetCookieHeader(SESSION_COOKIE, EncodeSession(session), SESSION_MAX_AGE, production)
  }

  function PendingSessionCookie(pending: PendingSession, production: bool): (h: string)
    ensures h == PENDING_SESSION_COOKIE + "=" + EncodePendingSession(pending) + "; " + FIXED_ATTRIBUTES + "600"
      + SecureSuffix(production)
  {
    MaxAgeDigits();
    SetCookieHeader(PENDING_SESSION_COOKIE, EncodePendingSession(pending), SHORT_MAX_AGE, production)
  }

  function StateCookie(state: string, production: bool): (h: string)
    ensures h == STATE_COOKIE + "=" + state + "; " + FIXED_ATTRIBUTES + "600" + SecureSuffix(production)
  {
    MaxAgeDigits();
    SetCookieHeader(STATE_COOKIE, state, SHORT_MAX_AGE, production)
  }

  /** A header that makes the browser drop cookie `name` at once. */
  function ClearCookie(name: string, production: bool): (h: string)
    ensures h == name + "=; " + FIXED_ATTRIBUTES + "0" + SecureSuffix(production)
  {
    MaxAgeDigits();
    assert name + "=" + "" + "; " == name + "=; ";
    SetCookieHeader(name, "", 0, production)
  }

  // ---------------------------------------------------------------------------
  // Cookie writers: each appends one Set-Cookie header to the response
  // ---------------------------------------------------------------------------

  method WithSessionCookie(response: Http.Response, session: FacebookSession, nodeEnv: Option<string>)
    modifies response
    ensures response.setCookies == old(response.setCookies) + [SessionCookie(session, IsProduction(nodeEnv))]
    ensures response.status == old(response.status) && response.location == old(response.location)
    ensures response.body == old(response.body)
  {
    response.AppendSetCookie(SessionCookie(session, IsProduction(nodeEnv)));
  }

  method WithPendingSessionCookie(response: Http.Response, pending: PendingSession, nodeEnv: Option<string>)
    modifies response
    ensures response.setCookies == old(response.setCookies) + [PendingSessionCookie(pending, IsProduction(nodeEnv))]
    ensures response.status == old(response.status) && response.location == old(response.location)
    ensures response.body == old(response.body)
  {
    response.AppendSetCookie(PendingSessionCookie(pending, IsProduction(nodeEnv)));
  }

  method WithStateCookie(response: Http.Response, state: string, nodeEnv: Option<string>)
    modifies response
    ensures response.setCookies == old(response.setCookies) + [StateCookie(state, IsProduction(nodeEnv))]
    ensures response.status == old(response.status) && response.location == old(response.location)
    ensures response.body == old(response.body)
  {
    response.AppendSetCookie(StateCookie(state, IsProduction(nodeEnv)));
  }

  method ClearSessionCookie(response: Http.Response, nodeEnv: Option<string>)
    modifies response
    ensures response.setCookies == old(response.setCookies) + [ClearCookie(SESSION_COOKIE, IsProduction(nodeEnv))]
    ensures response.status == old(response.status) && response.location == old(response.location)
    ensures response.body == old(response.body)
  {
    response.AppendSetCookie(ClearCookie(SESSION_COOKIE, IsProduction(nodeEnv)));
  }

  method ClearPendingSessionCookie(response: Http.Response, nodeEnv: Option<string>)
    modifies response
    ensures response.setCookies == old(response.setCookies) + [ClearCookie(PENDING_SESSION_COOKIE, IsProduction(nodeEnv))]
    ensures response.status == old(response.status) && response.location == old(response.location)
    ensures response.body == old(response.body)
  {
    response.AppendSetCookie(ClearCookie(PENDING_SESSION_COOKIE, IsProduction(nodeEnv)));
  }

  method ClearStateCookie(response: Http.Response, nodeEnv: Option<string>)
    modifies response
    ensures response.setCookies == old(response.setCookies) + [ClearCookie(STATE_COOKIE, IsProduction(nodeEnv))]
    ensures response.status == old(response.status) && response.location == old(response.location)
    ensures response.body == old(response.body)
  {
    response.AppendSetCookie(ClearCookie(STATE_COOKIE, IsProduction(nodeEnv)));
  }
}
