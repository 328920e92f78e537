/** The parts of the web platform the route handlers touch: parsed URLs, requests,
    environment variables and responses whose `Set-Cookie` headers are appended in place. */
module Http {
  import opened Wrappers

  /** A parsed absolute URL (the WHATWG `URL` object): `protocol` keeps its trailing ':'. */
  datatype Url = Url(href: string, protocol: string, host: string, query: seq<(string, string)>)

  /** `get(name)` on ordered name/value pairs (`URLSearchParams`, `FormData`): the first value
      given for `name`, if any. */
  function FirstValue<V>(pairs: seq<(string, V)>, name: string): (r: Option<V>)
    ensures r.None? <==> forall k :: 0 <= k < |pairs| ==> pairs[k].0 != name
    ensures r.Some? ==>
      exists k :: 0 <= k < |pairs| && pairs[k] == (name, r.value) && forall j :: 0 <= j < k ==> pairs[j].0 != name
  {
    if pairs == [] then None
    else if pairs[0].0 == name then Some(pairs[0].1)
    else
      var r := FirstValue(pairs[1..], name);
      assert forall k :: 1 <= k < |pairs| ==> pairs[k] == pairs[1..][k - 1];
      r
  }

  /** An incoming request: its URL, its headers keyed by lower-case name, and its cookies. */
  datatype Request = Request(url: Url, headers: map<string, string>, cookies: map<string, string>)

  /** `headers.get(name)`: `null` when the header is absent. */
  function HeaderGet(request: Request, name: string): Option<string> {
    if name in request.headers then Some(request.headers[name]) else None
  }

  /** `process.env[name]`. */
  function EnvGet(env: map<string, string>, name: string): Option<string> {
    if name in env then Some(env[name]) else None
  }

  /** The body of a response: none for a redirect, or a JSON object with an `error` field. */
  datatype Body = NoBody | ErrorJson(error: string)

  /** What a finished route handler answers, with the `Set-Cookie` headers in the order they were appended. */
  datatype Outcome =
    | JsonError(status: int, error: string)
    | Redirect(location: string, setCookies: seq<string>)
    | Thrown  // an exception escaped the handler: the framework answers 500 with its own error page

  /** A response object; route handlers append `Set-Cookie` headers to it one after another. */
  class Response {
    var status: int
    var location: string
    var body: Body
    var setCookies: seq<string>

    /** `NextResponse.redirect(url, { status: 302 })`. */
    constructor Redirect(url: string)
      ensures status == 302 && location == url && body == NoBody && setCookies == []
    {
      status, location, body, setCookies := 302, url, NoBody, [];
    }

    /** `NextResponse.json({ error }, { status })`. */
    constructor Json(error: string, code: int)
      ensures status == code && location == "" && body == ErrorJson(error) && setCookies == []
    {
      status, location, body, setCookies := code, "", ErrorJson(error), [];
    }

    /** The framework's answer to a handler that threw. */
    constructor Unhandled()
      ensures status == 500 && location == "" && body == NoBody && setCookies == []
    {
      status, location, body, setCookies := 500, "", NoBody, [];
    }

    /** `response.headers.append("Set-Cookie", cookie)`: earlier headers are kept. */
    method AppendSetCookie(cookie: string)
      modifies this
      ensures setCookies == old(setCookies) + [cookie]
      ensures status == old(status) && location == old(location) && body == old(body)
    {
      setCookies := setCookies + [cookie];
    }

    /** The response reads as `o`. */
    predicate Answers(o: Outcome)
      reads this
    {
      match o
      case JsonError(code, error) => status == code && body == ErrorJson(error) && setCookies == []
      case Redirect(url, cookies) => status == 302 && location == url && body == NoBody && setCookies == cookies
      case Thrown => status == 500 && body == NoBody && setCookies == []
    }
  }
}
