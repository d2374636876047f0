/**
 * The client and the gateway together: the credentials the client attaches
 * pass the gateway's header checks and the gateway forwards the very token
 * the client holds; a client without a token is turned away with the 401
 * that makes it sign out; and the callback body the client posts is
 * accepted exactly when it carries both a code and a verifier.
 */
module EndToEnd {
  import opened JsValues
  import opened Http
  import opened Worker
  import opened WorkerProperties
  import opened ClientApi

  /** The client's endpoints are the gateway's routes. */
  lemma ClientEndpointsAreRoutes(term: string, priceBookId: string)
    ensures "/auth/url" == AuthUrlPath && "/auth/callback" == CallbackPath && "/api/pricebooks" == PricebooksPath
    ensures StartsWith(SearchEndpoint(term), SearchPath + "?")
    ensures StartsWith(PriceBookEntriesEndpoint(priceBookId), PricebookEntriesPath + "?")
  {
    SearchEndpointCarriesTerm(term);
    PriceBookEntriesEndpointCarriesId(priceBookId);
  }

  /**
   * A request whose headers are those the client attaches for a non-empty,
   * space-free token and a non-empty instance URL is admitted by the
   * gateway, which forwards that token and that instance URL.
   */
  lemma ClientCredentialsAdmitted(req: Request, callerHeaders: Headers, token: string, instance: string)
    requires token != "" && ' ' !in token && instance != ""
    requires req.headers == AttachCredentials(callerHeaders, Str(token), Str(instance))
    requires Protected(req)
    ensures Admitted(req)
    ensures ForwardedToken(req) == token
    ensures HeaderGet(req, "SF-Instance-URL") == Str(instance)
  {
    var auth := "Bearer " + token;
    assert HeaderGet(req, "Authorization") == Str(auth);
    assert auth[..7] == "Bearer ";
    BearerTokenRoundTrip(token);
  }

  /**
   * What the client's `fetch` receives for a gateway response: its status,
   * the empty status text the `Response` constructor gives by default, and
   * its body as `response.json()` reads it. Plain text and an empty body do
   * not parse; `json` is how a JSON body reads back, since `JSON.stringify`
   * is not modelled.
   */
  function Received(r: Response, json: Json): Upstream {
    Reply(r.status, "", if r.body.NoBody? || r.body.Text? then NotJson else json)
  }

  /** A client without a token sends no `Authorization` header of its own making, and a protected route answers 401, which the client receives as the reply on which it signs out. */
  lemma SignedOutClientIsTurnedAway(req: Request, callerHeaders: Headers, token: JsVal, instance: JsVal, env: Env, platform: Platform, json: Json)
    requires !Truthy(token) && "Authorization" !in callerHeaders
    requires req.headers == AttachCredentials(callerHeaders, token, instance)
    requires Protected(req)
    ensures HandleRequest(req, env, platform) == TextResponse(401, "Unauthorized")
    ensures Received(HandleRequest(req, env, platform), json) == Reply(401, "", NotJson)
    ensures IsUnauthorized(Received(HandleRequest(req, env, platform), json))
  {
    UnauthorizedIff(req, env, platform);
  }

  /** The body `handleCallback` posts with a code and a verifier passes the gateway's checks, which then exchange exactly that code and verifier. */
  lemma CallbackPayloadAccepted(code: string, verifier: string)
    requires code != "" && verifier != ""
    ensures var body := JsonObject(CallbackPayload(Str(code), Str(verifier)));
      && CallbackFault(body).None?
      && CallbackCode(body) == code
      && CallbackVerifier(body) == verifier
  {
  }

  /**
   * A callback posted without a verifier (`handleCallback(code)`) is a body
   * without `codeVerifier`, which the gateway refuses with a 500 before any
   * token request, on every platform.
   */
  lemma CallbackWithoutVerifierRefused(req: Request, code: string, env: Env, platform: Platform, other: Platform)
    requires code != ""
    requires req.path == CallbackPath && req.httpMethod == "POST"
    requires req.body == JsonObject(CallbackPayload(Str(code), Undefined))
    ensures HandleRequest(req, env, platform) == JsonResponse(500, ErrorJson(Message("No code verifier provided")))
    ensures HandleRequest(req, env, other) == HandleRequest(req, env, platform)
  {
    assert CallbackFault(req.body) == Some(Message("No code verifier provided"));
    CallbackValidatesBeforeExchange(req, env, platform, other);
  }
}
