/**
 * The gateway Worker (worker/src/index.js): it builds the Salesforce
 * authorization URL with a PKCE challenge, exchanges an authorization code
 * for tokens, and relays three read-only queries to the Salesforce REST API
 * for a caller that presents a bearer token and an instance URL. Every
 * response carries the same permissive CORS headers.
 *
 * `HandleRequest` is the request handler; the body of its `try` block is
 * `Route`, and a `Thrown` outcome of `Route` is the `catch` that answers 500.
 */
module Worker {
  import opened JsValues
  import opened Http
  import Pkce
  import UriComponent

  const SfApiVersion := "v58.0"
  const SfLoginUrl := "https://login.salesforce.com"
  const SfAuthUrl := SfLoginUrl + "/services/oauth2/authorize"
  const SfTokenUrl := SfLoginUrl + "/services/oauth2/token"

  /** The routes, matched against the path exactly. */
  const AuthUrlPath := "/auth/url"
  const CallbackPath := "/auth/callback"
  const SearchPath := "/api/accounts/search"
  const PricebooksPath := "/api/pricebooks"
  const PricebookEntriesPath := "/api/pricebookentries"

  /** The scope the authorization request asks for. */
  const OAuthScope := "api refresh_token"

  /** `getCorsHeaders(request)`: the same three headers whatever the request; any origin is allowed. */
  const CorsHeaders: Headers := map[
    "Access-Control-Allow-Origin" := "*",
    "Access-Control-Allow-Methods" := "GET, POST, OPTIONS",
    "Access-Control-Allow-Headers" := "Content-Type, Authorization, SF-Instance-URL"]

  /** `{ 'Content-Type': 'application/json', ...getCorsHeaders(request) }`. */
  const JsonHeaders: Headers := map["Content-Type" := "application/json"] + CorsHeaders

  /** A JSON response with the CORS headers. */
  function JsonResponse(status: int, body: Body): Response {
    NewResponse(body, status, JsonHeaders)
  }

  /** A plain-text response with the CORS headers only. */
  function TextResponse(status: int, text: string): Response {
    NewResponse(Text(text), status, CorsHeaders)
  }

  /** `handleOptions(request)`: an empty 200 response with the CORS headers. */
  function HandleOptions(req: Request): (r: Response)
    ensures r.status == 200 && r.body == NoBody && r.headers == CorsHeaders
  {
    NewResponse(NoBody, 200, CorsHeaders)
  }

  /** What `getOAuthUrl` resolves with. */
  datatype AuthUrl = AuthUrl(url: UrlWithQuery, codeVerifier: string)

  /** The authorization request's query, in the order the code lists it. */
  function AuthorizeParams(clientId: string, redirectUri: string, state: string, challenge: string): seq<(string, string)> {
    [("response_type", "code"),
     ("client_id", clientId),
     ("redirect_uri", redirectUri),
     ("scope", OAuthScope),
     ("state", state),
     ("code_challenge", challenge),
     ("code_challenge_method", "S256")]
  }

  /**
   * `getOAuthUrl(env)`: the client id is checked before the redirect URI;
   * then a fresh PKCE pair is drawn and the authorization URL carries the
   * challenge while the verifier is returned beside it.
   */
  function GetOAuthUrl(env: Env, platform: Platform): (r: Outcome<AuthUrl>)
    ensures r.Ok? <==> Truthy(env.clientId) && Truthy(env.redirectUri)
  {
    if !Truthy(env.clientId) then Thrown(Message("SF_CLIENT_ID is not configured"))
    else if !Truthy(env.redirectUri) then Thrown(Message("REDIRECT_URI is not configured"))
    else
      var pkce := Pkce.GeneratePkce(platform.random, platform.sha256);
      var params := AuthorizeParams(env.clientId.s, env.redirectUri.s, platform.uuid, pkce.challenge);
      Ok(AuthUrl(UrlWithQuery(SfAuthUrl, params), pkce.verifier))
  }

  /** The form `getAccessToken` posts; `URLSearchParams` turns a missing binding into the text "undefined". */
  function TokenForm(code: string, env: Env, codeVerifier: string): seq<(string, string)> {
    [("grant_type", "authorization_code"),
     ("client_id", ToJsString(env.clientId)),
     ("client_secret", ToJsString(env.clientSecret)),
     ("redirect_uri", ToJsString(env.redirectUri)),
     ("code", code),
     ("code_verifier", codeVerifier)]
  }

  /** The token request: a form POST to the token endpoint. */
  function TokenCall(code: string, env: Env, codeVerifier: string): OutgoingCall {
    OutgoingCall(SfTokenUrl, "POST", map["Content-Type" := "application/x-www-form-urlencoded"], Form(TokenForm(code, env, codeVerifier)))
  }

  /** The message of a failed token exchange: the endpoint's `error_description`, or a fixed fallback. */
  const TokenFallbackMessage := "Failed to exchange code for token"

  /**
   * `getAccessToken(code, env, codeVerifier)`: a non-ok reply throws with
   * the reply's `error_description` when it is truthy and the fallback
   * otherwise; an ok reply resolves with its JSON, which is not validated.
   */
  function GetAccessToken(code: string, env: Env, codeVerifier: string, platform: Platform): (r: Outcome<Json>)
    ensures var u := platform.fetch(TokenCall(code, env, codeVerifier));
      && (r.Ok? <==> u.Reply? && IsOkStatus(u.status) && !u.body.NotJson?)
      && (r.Ok? ==> r.value == u.body)
      && (u.NetworkError? ==> r == Thrown(EngineMessage))
  {
    match platform.fetch(TokenCall(code, env, codeVerifier))
    case NetworkError => Thrown(EngineMessage)
    case Reply(status, _, body) =>
      if IsOkStatus(status) then ParseJson(body)
      else match ParseJson(body)
        case Thrown(m) => Thrown(m)
        case Ok(j) =>
          match Member(j, "error_description")
          case Thrown(m) => Thrown(m)
          case Ok(d) => Thrown(Message(OrElse(d, TokenFallbackMessage)))
  }

  /** The call `sfRequest` makes: the versioned data URL of the instance, the bearer token, a JSON content type. */
  function SfCall(instanceUrl: string, accessToken: string, path: string, httpMethod: string, body: Option<JsObject>): OutgoingCall {
    OutgoingCall(
      instanceUrl + "/services/data/" + SfApiVersion + path,
      httpMethod,
      map["Authorization" := "Bearer " + accessToken, "Content-Type" := "application/json"],
      if body.Some? then JsonText(body.value) else NoCallBody)
  }

  /** The prefix of the error `sfRequest` throws for a non-ok reply. */
  const SfRequestFailure := "Salesforce API request failed: "

  /** `sfRequest(...)`: a non-ok reply throws with its status text, an ok one resolves with its JSON. */
  function SfRequest(instanceUrl: string, accessToken: string, path: string, httpMethod: string, body: Option<JsObject>, platform: Platform): (r: Outcome<Json>)
    ensures var u := platform.fetch(SfCall(instanceUrl, accessToken, path, httpMethod, body));
      && (r.Ok? <==> u.Reply? && IsOkStatus(u.status) && !u.body.NotJson?)
      && (r.Ok? ==> r.value == u.body)
      && (u.Reply? && !IsOkStatus(u.status) ==> r == Thrown(Message(SfRequestFailure + u.statusText)))
  {
    match platform.fetch(SfCall(instanceUrl, accessToken, path, httpMethod, body))
    case NetworkError => Thrown(EngineMessage)
    case Reply(status, statusText, b) =>
      if IsOkStatus(status) then ParseJson(b)
      else Thrown(Message(SfRequestFailure + statusText))
  }

  /** The SOSL search for accounts whose name starts with the term. */
  function SearchSosl(term: string): string {
    "FIND {" + term + SearchSoslTail
  }

  const SearchSoslTail := "*} IN NAME FIELDS RETURNING Account(Id, Name, BillingStreet, BillingCity, BillingState, BillingPostalCode, BillingCountry)"

  const PricebooksSoql := "SELECT Id, Name FROM Pricebook2"

  /** The SOQL query for the entries of one price book; the id is spliced into a quoted literal as it is. */
  function PricebookEntriesSoql(priceBookId: string): string {
    PricebookEntriesSoqlHead + priceBookId + "'"
  }

  const PricebookEntriesSoqlHead := "SELECT Id, UnitPrice, Product2.Name, Product2.ProductCode FROM PricebookEntry WHERE Pricebook2Id = '"

  /** `const { code, codeVerifier } = await request.json()`. */
  function CallbackFields(body: Json): Outcome<(JsVal, JsVal)> {
    match body
    case NotJson => Thrown(EngineMessage)
    case JsonNull => Thrown(EngineMessage)
    case JsonScalar => Ok((Undefined, Undefined))
    case JsonObject(f) => Ok((Prop(f, "code"), Prop(f, "codeVerifier")))
  }

  /** The request carries a truthy `Authorization` header that starts with `Bearer `. */
  predicate HasBearer(req: Request) {
    var auth := HeaderGet(req, "Authorization");
    Truthy(auth) && StartsWith(auth.s, "Bearer ")
  }

  /** `authHeader.split(' ')[1]`. */
  function BearerToken(auth: string): string
    requires StartsWith(auth, "Bearer ")
  {
    assert auth[..7][6] == ' ';
    Split(auth, ' ')[1]
  }

  /** An upstream result answered as JSON with status 200; a thrown one propagates. */
  function Relay(o: Outcome<Json>): Outcome<Response> {
    match o
    case Ok(v) => Ok(JsonResponse(200, JsonValue(v)))
    case Thrown(m) => Thrown(m)
  }

  /** `/auth/url`, for every method: its own `catch` turns a configuration error into a 500. */
  function AuthUrlRoute(env: Env, platform: Platform): Response {
    match GetOAuthUrl(env, platform)
    case Ok(a) => JsonResponse(200, AuthUrlJson(a.url, a.codeVerifier))
    case Thrown(m) => JsonResponse(500, ErrorJson(m))
  }

  /** `/auth/callback`: POST only; a missing code or verifier throws to the outer `catch`; a failed exchange is a 400. */
  function CallbackRoute(req: Request, env: Env, platform: Platform): Outcome<Response> {
    if req.httpMethod != "POST" then Ok(JsonResponse(405, ErrorJson(Message("Method not allowed"))))
    else match CallbackFields(req.body)
      case Thrown(m) => Thrown(m)
      case Ok((code, codeVerifier)) =>
        if !Truthy(code) then Thrown(Message("No authorization code provided"))
        else if !Truthy(codeVerifier) then Thrown(Message("No code verifier provided"))
        else match GetAccessToken(code.s, env, codeVerifier.s, platform)
          case Ok(t) => Ok(JsonResponse(200, JsonValue(t)))
          case Thrown(m) => Ok(JsonResponse(400, ErrorJson(m)))
  }

  /** Every other path: the bearer token and the instance URL are required before the route is looked up. */
  function ApiRoute(req: Request, platform: Platform): Outcome<Response> {
    if !HasBearer(req) then Ok(TextResponse(401, "Unauthorized"))
    else
      var token := BearerToken(HeaderGet(req, "Authorization").s);
      var instanceUrl := HeaderGet(req, "SF-Instance-URL");
      if !Truthy(instanceUrl) then Ok(TextResponse(400, "Instance URL required"))
      else if req.path == SearchPath then
        var term := OrElse(QueryGet(req, "term"), "");
        Relay(SfRequest(instanceUrl.s, token, "/search?q=" + UriComponent.EncodeUriComponent(SearchSosl(term)), "GET", None, platform))
      else if req.path == PricebooksPath then
        Relay(SfRequest(instanceUrl.s, token, "/query?q=" + UriComponent.EncodeUriComponent(PricebooksSoql), "GET", None, platform))
      else if req.path == PricebookEntriesPath then
        var priceBookId := QueryGet(req, "pricebookId");
        if !Truthy(priceBookId) then Thrown(Message("Price book ID is required"))
        else Relay(SfRequest(instanceUrl.s, token, "/query?q=" + UriComponent.EncodeUriComponent(PricebookEntriesSoql(priceBookId.s)), "GET", None, platform))
      else Ok(TextResponse(404, "Not Found"))
  }

  /** The `try` block of `handleRequest`, after the preflight check. */
  function Route(req: Request, env: Env, platform: Platform): Outcome<Response> {
    if req.path == AuthUrlPath then Ok(AuthUrlRoute(env, platform))
    else if req.path == CallbackPath then CallbackRoute(req, env, platform)
    else ApiRoute(req, platform)
  }

  /** The outer `catch` of `handleRequest`: a thrown error becomes a 500 carrying its message. */
  function Catch(o: Outcome<Response>): Response {
    match o
    case Ok(r) => r
    case Thrown(m) => JsonResponse(500, ErrorJson(m))
  }

  /** `handleRequest(request, env)`: preflight first, then the routes inside the `try`. */
  function HandleRequest(req: Request, env: Env, platform: Platform): Response {
    if req.httpMethod == "OPTIONS" then HandleOptions(req) else Catch(Route(req, env, platform))
  }

  /** The exported `fetch` handler: it repeats the preflight check, then delegates. */
  function Fetch(req: Request, env: Env, platform: Platform): (r: Response)
    ensures r == HandleRequest(req, env, platform)
  {
    if req.httpMethod == "OPTIONS" then HandleOptions(req) else HandleRequest(req, env, platform)
  }
}
