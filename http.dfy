/**
 * The HTTP surface of the gateway, reduced to what its code inspects: an
 * incoming request (method, path, decoded query parameters, headers and the
 * JSON body), the responses it builds, the calls it makes upstream and what
 * those calls return. The platform's foreign parts (randomness, SHA-256,
 * `crypto.randomUUID`, `fetch`) are the fields of `Platform`.
 */
module Http {
  import opened JsValues

  /** Header names map to values; names are compared exactly as written in the code. */
  type Headers = map<string, string>

  /** An incoming request: `request.method`, `new URL(request.url).pathname` and `.searchParams`, `request.headers`, and `await request.json()`. */
  datatype Request = Request(httpMethod: string, path: string, query: map<string, string>, headers: Headers, body: Json)

  /** `request.headers.get(name)`: the value, or `null` when absent. */
  function HeaderGet(req: Request, name: string): JsVal {
    if name in req.headers then Str(req.headers[name]) else Null
  }

  /** `url.searchParams.get(name)`: the value, or `null` when absent. */
  function QueryGet(req: Request, name: string): JsVal {
    if name in req.query then Str(req.query[name]) else Null
  }

  /** A URL with an ordered query, the value-level model of `` `${base}?${new URLSearchParams(params)}` ``. */
  datatype UrlWithQuery = UrlWithQuery(base: string, params: seq<(string, string)>)

  /** The first value given for `key` in an ordered parameter list. */
  function ParamValue(params: seq<(string, string)>, key: string): Option<string> {
    if params == [] then None
    else if params[0].0 == key then Some(params[0].1)
    else ParamValue(params[1..], key)
  }

  /** A key that no earlier pair uses gives its own value. */
  lemma {:induction false} ParamValueAt(params: seq<(string, string)>, i: nat)
    requires i < |params|
    requires forall j :: 0 <= j < i ==> params[j].0 != params[i].0
    ensures ParamValue(params, params[i].0) == Some(params[i].1)
  {
    if i > 0 {
      ParamValueAt(params[1..], i - 1);
    }
  }

  /** A key that no pair uses has no value. */
  lemma {:induction false} ParamValueAbsent(params: seq<(string, string)>, key: string)
    requires forall j :: 0 <= j < |params| ==> params[j].0 != key
    ensures ParamValue(params, key) == None
  {
    if params != [] {
      ParamValueAbsent(params[1..], key);
    }
  }

  /** A response body, before `JSON.stringify`. */
  datatype Body =
    | NoBody
    | Text(text: string)
    | ErrorJson(message: ErrorMessage)          // `{ error: error.message }`
    | JsonValue(value: Json)                    // an upstream JSON value relayed as is
    | AuthUrlJson(url: UrlWithQuery, codeVerifier: string)   // `{ url, codeVerifier }`

  datatype Response = Response(status: int, body: Body, headers: Headers)

  /** The header a text body gets from the `Response` constructor when the code sets none (the Fetch standard's "extract a body"). */
  const DefaultTextContentType := "text/plain;charset=UTF-8"

  /** `new Response(body, { status, headers })`: a `null` body stays bodiless; a string body without a `Content-Type` gets the default one. */
  function NewResponse(body: Body, status: int, headers: Headers): (r: Response)
    ensures r.status == status && r.body == body
    ensures forall k :: k in headers ==> k in r.headers && r.headers[k] == headers[k]
    ensures body != NoBody ==> "Content-Type" in r.headers
  {
    if body != NoBody && "Content-Type" !in headers
    then Response(status, body, headers["Content-Type" := DefaultTextContentType])
    else Response(status, body, headers)
  }

  /** The body of an outgoing call. */
  datatype CallBody = NoCallBody | Form(fields: seq<(string, string)>) | JsonText(value: JsObject)

  /** A `fetch` the gateway makes upstream. */
  datatype OutgoingCall = OutgoingCall(url: string, httpMethod: string, headers: Headers, body: CallBody)

  /** What an upstream `fetch` settles to: it rejects (a network error), or it resolves with a status, a status text and what `response.json()` makes of the body. */
  datatype Upstream = NetworkError | Reply(status: int, statusText: string, body: Json)

  /** `response.ok`: the status is in the range 200 to 299. */
  predicate IsOkStatus(status: int) {
    200 <= status <= 299
  }

  /** The platform services the gateway calls. */
  datatype Platform = Platform(
    random: nat -> byte,                 // the bytes crypto.getRandomValues writes
    sha256: seq<byte> -> seq<byte>,      // crypto.subtle.digest('SHA-256', ...)
    uuid: string,                        // crypto.randomUUID()
    fetch: OutgoingCall -> Upstream)     // fetch to the Salesforce login and data endpoints

  /** The Worker's environment bindings. */
  datatype Env = Env(clientId: JsVal, clientSecret: JsVal, redirectUri: JsVal)
}
