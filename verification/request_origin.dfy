/** `resolveRequestOrigin` (lib/requestOrigin.ts): the public origin of a request behind a proxy. */
module RequestOrigin {
  import opened Wrappers
  import opened Text
  import Http

  const RENDER_EXTERNAL_URL: string := "RENDER_EXTERNAL_URL"
  const RENDER_EXTERNAL_HOSTNAME: string := "RENDER_EXTERNAL_HOSTNAME"

  /** `parts.map(trim).find(Boolean)`: the first piece that is not blank, trimmed. */
  function FirstNonBlank(parts: seq<string>): Option<string> {
    if parts == [] then None
    else if Trim(parts[0]) != "" then Some(Trim(parts[0]))
    else FirstNonBlank(parts[1..])
  }

  /** The position of the first non-blank piece, or `|parts|` when every piece is blank. */
  function FirstNonBlankIndex(parts: seq<string>): (k: nat)
    ensures k <= |parts|
    ensures forall j :: 0 <= j < k ==> Trim(parts[j]) == ""
    ensures k < |parts| ==> Trim(parts[k]) != ""
  {
    if parts == [] || Trim(parts[0]) != "" then 0
    else
      var k := FirstNonBlankIndex(parts[1..]);
      assert forall j :: 1 <= j < |parts| ==> parts[j] == parts[1..][j - 1];
      k + 1
  }

  /** `find` returns the trimmed piece at the first non-blank position, and nothing when there is none. */
  lemma {:induction false} FirstNonBlankIsFirst(parts: seq<string>)
    ensures var k := FirstNonBlankIndex(parts);
      FirstNonBlank(parts) == if k < |parts| then Some(Trim(parts[k])) else None
  {
    if parts != [] && Trim(parts[0]) == "" {
      FirstNonBlankIsFirst(parts[1..]);
      var k := FirstNonBlankIndex(parts[1..]);
      if k < |parts[1..]| {
        assert parts[k + 1] == parts[1..][k];
      }
    }
  }

  /** `header?.split(",").map(trim).find(Boolean)`: the first listed value of a proxy header. Nothing
      without the header or when every listed value is blank; otherwise a non-empty value that holds no
      comma and has no whitespace at either end. */
  function FirstListed(header: Option<string>): (r: Option<string>)
    ensures header.None? ==> r.None?
    ensures header.Some? ==> (r.None? <==> AllBlank(Split(header.value, ',')))
    ensures r.Some? ==> ListedValue(r.value, ',')
  {
    if header.None? then None
    else
      var parts := Split(header.value, ',');
      FirstListedShape(parts, ',');
      FirstNonBlank(parts)
  }

  /** A value a list header can yield: non-empty, free of the separator, no whitespace at either end. */
  predicate ListedValue(v: string, sep: char) {
    v != "" && sep !in v && !IsWhitespace(v[0]) && !IsWhitespace(v[|v| - 1])
  }

  /** Every piece trims to nothing. */
  predicate AllBlank(parts: seq<string>) {
    forall j :: 0 <= j < |parts| ==> Trim(parts[j]) == ""
  }

  /** The first non-blank piece, trimmed, is missing exactly when every piece is blank; otherwise it is
      non-empty, has no whitespace at either end, and holds no separator when no piece does. */
  lemma FirstListedShape(parts: seq<string>, sep: char)
    requires forall j :: 0 <= j < |parts| ==> sep !in parts[j]
    ensures var r := FirstNonBlank(parts);
      && (r.None? <==> AllBlank(parts))
      && (r.Some? ==> ListedValue(r.value, sep))
  {
    FirstNonBlankIsFirst(parts);
    var k := FirstNonBlankIndex(parts);
    if k < |parts| {
      TrimAddsNothing(parts[k], sep);
    }
  }

  /** `x-forwarded-host ?? host`: a present `x-forwarded-host`, even a blank one, hides `host`. */
  function ForwardedHost(request: Http.Request): (r: Option<string>)
    ensures "x-forwarded-host" in request.headers ==> r == Some(request.headers["x-forwarded-host"])
    ensures "x-forwarded-host" !in request.headers ==>
      (r.Some? <==> "host" in request.headers) && (r.Some? ==> r.value == request.headers["host"])
  {
    match Http.HeaderGet(request, "x-forwarded-host")
    case Some(h) => Some(h)
    case None => Http.HeaderGet(request, "host")
  }

  /** `RENDER_EXTERNAL_URL` when it is set and parses; an unparseable value is ignored. */
  function RenderUrl(env: map<string, string>, parseUrl: string -> Option<Http.Url>): Option<Http.Url> {
    var raw := Http.EnvGet(env, RENDER_EXTERNAL_URL);
    if Truthy(raw) then parseUrl(raw.value) else None
  }

  /** The position of the first `c` in `s`, or `|s|` when there is none. */
  function FirstIndexOf(s: string, c: char): (i: nat)
    ensures i <= |s| && c !in s[..i]
    ensures i < |s| ==> s[i] == c
  {
    if s == [] then 0
    else if s[0] == c then 0
    else
      var i := FirstIndexOf(s[1..], c);
      assert s[..i + 1] == [s[0]] + s[1..][..i];
      i + 1
  }

  /** `s.replace(":", "")`: drops the first ':' only, and leaves a string without one as it is. */
  function DropFirstColon(s: string): (r: string)
    ensures |r| == if ':' in s then |s| - 1 else |s|
  {
    if s == [] then s
    else if s[0] == ':' then s[1..]
    else [s[0]] + DropFirstColon(s[1..])
  }

  /** What is dropped is exactly the first colon: the text before it and the text after it are kept. */
  lemma {:induction false} DropFirstColonCutsFirst(s: string)
    ensures FirstIndexOf(s, ':') < |s| ==>
      DropFirstColon(s) == s[..FirstIndexOf(s, ':')] + s[FirstIndexOf(s, ':') + 1..]
    ensures FirstIndexOf(s, ':') == |s| ==> DropFirstColon(s) == s
  {
    if s != [] && s[0] != ':' {
      DropFirstColonCutsFirst(s[1..]);
      DropFirstColonStep(s);
      ConsSlices(s, FirstIndexOf(s[1..], ':'));
    } else if s != [] {
      assert s[..0] + s[1..] == s[1..];
    }
  }

  /** Past a first character that is not a colon, both the search and the cut move one place on. */
  lemma DropFirstColonStep(s: string)
    requires s != [] && s[0] != ':'
    ensures FirstIndexOf(s, ':') == FirstIndexOf(s[1..], ':') + 1
    ensures DropFirstColon(s) == [s[0]] + DropFirstColon(s[1..])
  {
  }

  /** Cutting one character out of a tail, then putting the head back; with nothing cut, the head and
      the tail are the whole. */
  lemma ConsSlices(s: string, i: nat)
    requires i < |s|
    ensures i + 1 < |s| ==> s[..i + 1] + s[i + 2..] == [s[0]] + (s[1..][..i] + s[1..][i + 1..])
    ensures [s[0]] + s[1..] == s
  {
    if i + 1 < |s| {
      assert s[..i + 1] == [s[0]] + s[1..][..i];
      assert s[i + 2..] == s[1..][i + 1..];
    }
  }

  /** The host chain: header, `RENDER_EXTERNAL_HOSTNAME`, the render URL's host, the request URL's host;
      each link is taken only when every earlier one is missing or empty. */
  function ResolveHost(headerHost: Option<string>, renderHostname: Option<string>, renderUrl: Option<Http.Url>,
                       requestUrl: Http.Url): (host: string)
    ensures Truthy(headerHost) ==> host == headerHost.value
    ensures !Truthy(headerHost) && Truthy(renderHostname) ==> host == renderHostname.value
    ensures !Truthy(headerHost) && !Truthy(renderHostname) && renderUrl.Some? && renderUrl.value.host != ""
      ==> host == renderUrl.value.host
    ensures !Truthy(headerHost) && !Truthy(renderHostname) && (renderUrl.None? || renderUrl.value.host == "")
      ==> host == requestUrl.host
  {
    var renderHost := if renderUrl.Some? then Some(renderUrl.value.host) else None;
    OrElse(OrElse(OrElse(headerHost, renderHostname), renderHost), Some(requestUrl.host)).value
  }

  /** The protocol chain: header, the render URL's scheme, the request URL's scheme, then a guess
      from the host; each link is taken only when every earlier one is missing or empty. */
  function ResolveProtocol(headerProto: Option<string>, renderUrl: Option<Http.Url>, requestUrl: Http.Url,
                           host: string): (protocol: string)
    ensures protocol != ""
    ensures Truthy(headerProto) ==> protocol == headerProto.value
    ensures !Truthy(headerProto) && renderUrl.Some? && DropFirstColon(renderUrl.value.protocol) != ""
      ==> protocol == DropFirstColon(renderUrl.value.protocol)
    ensures (!Truthy(headerProto) && (renderUrl.None? || DropFirstColon(renderUrl.value.protocol) == "")
             && DropFirstColon(requestUrl.protocol) != "") ==> protocol == DropFirstColon(requestUrl.protocol)
    ensures (!Truthy(headerProto) && (renderUrl.None? || DropFirstColon(renderUrl.value.protocol) == "")
             && DropFirstColon(requestUrl.protocol) == "")
      ==> protocol == (if Contains(host, "localhost") then "http" else "https")
  {
    var renderProtocol := if renderUrl.Some? then Some(DropFirstColon(renderUrl.value.protocol)) else None;
    var guess := if Contains(host, "localhost") then "http" else "https";
    OrElse(OrElse(OrElse(headerProto, renderProtocol), Some(DropFirstColon(requestUrl.protocol))), Some(guess)).value
  }

  /** `resolveRequestOrigin`: a non-empty protocol, `://`, and the resolved host. */
  function ResolveRequestOrigin(request: Http.Request, env: map<string, string>,
                                parseUrl: string -> Option<Http.Url>): (origin: string)
    ensures exists protocol :: protocol != [] && origin == protocol + "://" + OriginHost(request, env, parseUrl)
    ensures origin == ResolveProtocol(FirstListed(Http.HeaderGet(request, "x-forwarded-proto")), RenderUrl(env, parseUrl),
                                      request.url, OriginHost(request, env, parseUrl))
                      + "://" + OriginHost(request, env, parseUrl)
  {
    var renderUrl := RenderUrl(env, parseUrl);
    var host := OriginHost(request, env, parseUrl);
    var protocol := ResolveProtocol(FirstListed(Http.HeaderGet(request, "x-forwarded-proto")), renderUrl,
                                    request.url, host);
    assert protocol != [] && protocol + "://" + host == protocol + "://" + OriginHost(request, env, parseUrl);
    protocol + "://" + host
  }

  /** A non-blank `x-forwarded-proto` decides the protocol of the origin. */
  lemma ForwardedProtoWins(request: Http.Request, env: map<string, string>, parseUrl: string -> Option<Http.Url>)
    requires "x-forwarded-proto" in request.headers
    requires FirstListed(Some(request.headers["x-forwarded-proto"])).Some?
    ensures ResolveRequestOrigin(request, env, parseUrl)
      == FirstListed(Some(request.headers["x-forwarded-proto"])).value + "://" + OriginHost(request, env, parseUrl)
  {
  }

  /** Without any forwarded protocol, configured URL or request scheme, a localhost origin is `http`
      and any other is `https`. */
  lemma ProtocolGuessedFromHost(headerProto: Option<string>, requestUrl: Http.Url, host: string)
    requires !Truthy(headerProto) && requestUrl.protocol == ""
    ensures ResolveProtocol(headerProto, None, requestUrl, host) == (if Contains(host, "localhost") then "http" else "https")
  {
  }

  /** The host part of the origin. */
  function OriginHost(request: Http.Request, env: map<string, string>, parseUrl: string -> Option<Http.Url>): (host: string)
    ensures FirstListed(ForwardedHost(request)).Some? ==> host == FirstListed(ForwardedHost(request)).value
    ensures FirstListed(ForwardedHost(request)).None? && Truthy(Http.EnvGet(env, RENDER_EXTERNAL_HOSTNAME))
      ==> host == Http.EnvGet(env, RENDER_EXTERNAL_HOSTNAME).value
    ensures host == "" ==> FirstListed(ForwardedHost(request)).None? && request.url.host == ""
    ensures host == ResolveHost(FirstListed(ForwardedHost(request)), Http.EnvGet(env, RENDER_EXTERNAL_HOSTNAME),
                                RenderUrl(env, parseUrl), request.url)
  {
    ResolveHost(FirstListed(ForwardedHost(request)), Http.EnvGet(env, RENDER_EXTERNAL_HOSTNAME),
                RenderUrl(env, parseUrl), request.url)
  }

  /** A non-blank `x-forwarded-host` decides the host, whatever `host` says. */
  lemma ForwardedHostWins(request: Http.Request, env: map<string, string>, parseUrl: string -> Option<Http.Url>,
                          otherHost: string)
    requires "x-forwarded-host" in request.headers
    requires FirstListed(Some(request.headers["x-forwarded-host"])).Some?
    ensures OriginHost(request, env, parseUrl) == FirstListed(Some(request.headers["x-forwarded-host"])).value
    ensures OriginHost(request.(headers := request.headers["host" := otherHost]), env, parseUrl)
      == OriginHost(request, env, parseUrl)
  {
  }

  /** A present but blank `x-forwarded-host` does not fall back to `host`: the chain moves on to the
      environment and the request URL instead, because the two headers are combined with `??`, not `||`. */
  lemma BlankForwardedHostHidesHostHeader(request: Http.Request, env: map<string, string>,
                                          parseUrl: string -> Option<Http.Url>)
    requires "x-forwarded-host" in request.headers
    requires AllWhitespace(request.headers["x-forwarded-host"])
    ensures OriginHost(request, env, parseUrl)
      == ResolveHost(None, Http.EnvGet(env, RENDER_EXTERNAL_HOSTNAME), RenderUrl(env, parseUrl), request.url)
  {
    var h := request.headers["x-forwarded-host"];
    var parts := Split(h, ',');
    JoinSplit(h, ',');
    FirstNonBlankIsFirst(parts);
    forall k | 0 <= k < |parts| ensures Trim(parts[k]) == "" {
      JoinPieceIsSlice(parts, k, ',');
      forall i | 0 <= i < |parts[k]| ensures IsWhitespace(parts[k][i]) {
        assert parts[k][i] in h;
      }
    }
  }

  /** Every character of a piece of a split string occurs in the string. */
  lemma {:induction false} JoinPieceIsSlice(parts: seq<string>, k: nat, sep: char)
    requires k < |parts|
    ensures forall c :: c in parts[k] ==> c in Join(parts, [sep])
  {
    if |parts| > 1 {
      if k > 0 {
        JoinPieceIsSlice(parts[1..], k - 1, sep);
        assert parts[k] == parts[1..][k - 1];
      }
      assert Join(parts, [sep]) == parts[0] + [sep] + Join(parts[1..], [sep]);
    }
  }

  /** An unparseable `RENDER_EXTERNAL_URL` changes nothing: the origin is as if it were unset. */
  lemma UnparseableRenderUrlIgnored(request: Http.Request, env: map<string, string>,
                                    parseUrl: string -> Option<Http.Url>)
    requires RENDER_EXTERNAL_URL in env && parseUrl(env[RENDER_EXTERNAL_URL]) == None
    ensures ResolveRequestOrigin(request, env, parseUrl)
      == ResolveRequestOrigin(request, env - {RENDER_EXTERNAL_URL}, parseUrl)
  {
    assert RenderUrl(env, parseUrl) == None;
    assert RenderUrl(env - {RENDER_EXTERNAL_URL}, parseUrl) == None;
    assert Http.EnvGet(env - {RENDER_EXTERNAL_URL}, RENDER_EXTERNAL_HOSTNAME) == Http.EnvGet(env, RENDER_EXTERNAL_HOSTNAME);
  }
}
