/**
 * What the gateway promises, stated over `HandleRequest` for every request,
 * environment and platform: preflight short-circuits, every response keeps
 * the CORS headers, each status code has exactly one cause, the callback
 * validates its body before it calls the token endpoint, and the relayed
 * routes send the intended query to the versioned data API and map its reply
 * as the reference functions below say.
 */
module WorkerProperties {
  import opened JsValues
  import opened Http
  import opened Worker
  import Pkce
  import Utf8
  import Base64Url
  import UriComponent

  /** A request that is neither preflight nor one of the two unauthenticated auth routes. */
  predicate Protected(req: Request) {
    req.httpMethod != "OPTIONS" && req.path != AuthUrlPath && req.path != CallbackPath
  }

  predicate HasInstanceUrl(req: Request) {
    Truthy(HeaderGet(req, "SF-Instance-URL"))
  }

  /** A protected request that passed both header checks. */
  predicate Admitted(req: Request) {
    Protected(req) && HasBearer(req) && HasInstanceUrl(req)
  }

  /** One of the three relayed data routes. */
  predicate IsDataPath(path: string) {
    path == SearchPath || path == PricebooksPath || path == PricebookEntriesPath
  }

  /** The headers of a text response: the CORS headers and the constructor's default content type. */
  const TextHeaders: Headers := CorsHeaders["Content-Type" := DefaultTextContentType]

  /** The headers carry every CORS header with its value. */
  predicate HasCors(h: Headers) {
    forall k :: k in CorsHeaders ==> k in h && h[k] == CorsHeaders[k]
  }

  /** The three header sets the gateway answers with, and what each holds. */
  lemma HeaderSets()
    ensures HasCors(CorsHeaders) && HasCors(JsonHeaders) && HasCors(TextHeaders)
    ensures "Content-Type" !in CorsHeaders
    ensures JsonHeaders["Content-Type"] == "application/json"
    ensures TextHeaders["Content-Type"] == DefaultTextContentType
    ensures CorsHeaders["Access-Control-Allow-Origin"] == "*"
  {
    assert "Content-Type" != "Access-Control-Allow-Origin";
  }

  /** A JSON response keeps the headers the code gives it; a text response gains the default content type. */
  lemma ResponseShapes(status: int, body: Body, text: string)
    ensures JsonResponse(status, body) == Response(status, body, JsonHeaders)
    ensures TextResponse(status, text) == Response(status, Text(text), TextHeaders)
  {
    HeaderSets();
  }

  /** `/auth/url` answers 200 exactly when both bindings are set, and a 500 with the error otherwise, always as JSON. */
  lemma AuthUrlRouteFacts(env: Env, platform: Platform)
    ensures var r := AuthUrlRoute(env, platform);
      && r.headers == JsonHeaders
      && (r.status == 200 || r.status == 500)
      && (r.status == 200 <==> Truthy(env.clientId) && Truthy(env.redirectUri))
      && (r.status == 200 ==> r.body.AuthUrlJson?)
      && (r.status == 500 ==> r.body.ErrorJson?)
  {
    var r := AuthUrlRoute(env, platform);
    ResponseShapes(r.status, r.body, "");
  }

  /** The callback body's fault, if any, computed from the parsed body alone. */
  function CallbackFault(body: Json): Option<ErrorMessage> {
    match body
    case NotJson => Some(EngineMessage)
    case JsonNull => Some(EngineMessage)
    case JsonScalar => Some(Message("No authorization code provided"))
    case JsonObject(f) =>
      if !Truthy(Prop(f, "code")) then Some(Message("No authorization code provided"))
      else if !Truthy(Prop(f, "codeVerifier")) then Some(Message("No code verifier provided"))
      else None
  }

  /** The code of a faultless callback body. */
  function CallbackCode(body: Json): string
    requires CallbackFault(body).None?
  {
    Prop(body.fields, "code").s
  }

  /** The verifier of a faultless callback body. */
  function CallbackVerifier(body: Json): string
    requires CallbackFault(body).None?
  {
    Prop(body.fields, "codeVerifier").s
  }

  /** A faultless callback POST whose token exchange throws. */
  predicate ExchangeRejected(req: Request, env: Env, platform: Platform) {
    && req.httpMethod == "POST" && CallbackFault(req.body).None?
    && GetAccessToken(CallbackCode(req.body), env, CallbackVerifier(req.body), platform).Thrown?
  }

  /**
   * How the callback answers a token-endpoint reply: a network error or a
   * malformed reply is a 400 with the engine's message, a rejection a 400
   * with `error_description` (or the fallback), an accepted exchange a 200
   * relaying the token response as it came.
   */
  function TokenResponse(u: Upstream): Response {
    match u
    case NetworkError => JsonResponse(400, ErrorJson(EngineMessage))
    case Reply(status, _, body) =>
      if body.NotJson? then JsonResponse(400, ErrorJson(EngineMessage))
      else if IsOkStatus(status) then JsonResponse(200, JsonValue(body))
      else if body.JsonNull? then JsonResponse(400, ErrorJson(EngineMessage))
      else if body.JsonScalar? then JsonResponse(400, ErrorJson(Message(TokenFallbackMessage)))
      else JsonResponse(400, ErrorJson(Message(OrElse(Prop(body.fields, "error_description"), TokenFallbackMessage))))
  }

  /** The callback route: 405 for a method other than POST, the body's fault thrown, or the token reply mapped by `TokenResponse`. */
  lemma CallbackRouteFacts(req: Request, env: Env, platform: Platform)
    ensures var o := CallbackRoute(req, env, platform);
      && (req.httpMethod != "POST" ==> o == Ok(JsonResponse(405, ErrorJson(Message("Method not allowed")))))
      && (req.httpMethod == "POST" && CallbackFault(req.body).Some? ==> o == Thrown(CallbackFault(req.body).value))
      && (req.httpMethod == "POST" && CallbackFault(req.body).None? ==>
            o == Ok(TokenResponse(platform.fetch(TokenCall(CallbackCode(req.body), env, CallbackVerifier(req.body))))))
      && (o.Thrown? <==> req.httpMethod == "POST" && CallbackFault(req.body).Some?)
      && (o.Ok? ==> o.value.headers == JsonHeaders && o.value.status in {200, 400, 405})
      && (o.Ok? ==> (o.value.status == 405 <==> req.httpMethod != "POST"))
      && (o.Ok? ==> (o.value.status == 400 <==> ExchangeRejected(req, env, platform)))
      && (o.Ok? ==> !o.value.body.Text? && !o.value.body.NoBody?)
  {
    var o := CallbackRoute(req, env, platform);
    if req.httpMethod == "POST" && CallbackFault(req.body).None? {
      var call := TokenCall(CallbackCode(req.body), env, CallbackVerifier(req.body));
      var u := platform.fetch(call);
      ResponseShapes(TokenResponse(u).status, TokenResponse(u).body, "");
      match u
      case NetworkError =>
      case Reply(status, _, body) =>
        if !body.NotJson? && !IsOkStatus(status) && body.JsonObject? {
          assert GetAccessToken(CallbackCode(req.body), env, CallbackVerifier(req.body), platform)
            == Thrown(Message(OrElse(Prop(body.fields, "error_description"), TokenFallbackMessage)));
        }
    } else if req.httpMethod != "POST" {
      ResponseShapes(405, ErrorJson(Message("Method not allowed")), "");
    }
  }

  /**
   * How a relayed data route answers the data API's reply: a network error
   * or malformed JSON is a 500 with the engine's message, a non-ok reply a
   * 500 naming its status text, an ok reply a 200 relaying the JSON.
   */
  function DataResponse(u: Upstream): Response {
    match u
    case NetworkError => JsonResponse(500, ErrorJson(EngineMessage))
    case Reply(status, statusText, body) =>
      if !IsOkStatus(status) then JsonResponse(500, ErrorJson(Message(SfRequestFailure + statusText)))
      else if body.NotJson? then JsonResponse(500, ErrorJson(EngineMessage))
      else JsonResponse(200, JsonValue(body))
  }

  /** A relayed `sfRequest`, once the outer `catch` has run, answers as `DataResponse` says. */
  lemma RelayedRequest(instanceUrl: string, token: string, path: string, platform: Platform)
    ensures Catch(Relay(SfRequest(instanceUrl, token, path, "GET", None, platform)))
      == DataResponse(platform.fetch(SfCall(instanceUrl, token, path, "GET", None)))
    ensures var o := Relay(SfRequest(instanceUrl, token, path, "GET", None, platform));
      o.Ok? ==> o.value.status == 200 && o.value.body.JsonValue? && o.value.headers == JsonHeaders
  {
    ResponseShapes(200, NoBody, "");
  }

  /** The data routes: 401 without a bearer token, 400 without an instance URL, 404 off the data paths, otherwise a relayed 200 or a throw. */
  lemma ApiRouteFacts(req: Request, platform: Platform)
    ensures var o := ApiRoute(req, platform);
      && (!HasBearer(req) ==> o == Ok(Response(401, Text("Unauthorized"), TextHeaders)))
      && (HasBearer(req) && !HasInstanceUrl(req) ==> o == Ok(Response(400, Text("Instance URL required"), TextHeaders)))
      && (HasBearer(req) && HasInstanceUrl(req) && !IsDataPath(req.path) ==> o == Ok(Response(404, Text("Not Found"), TextHeaders)))
      && (HasBearer(req) && HasInstanceUrl(req) && IsDataPath(req.path) && o.Ok? ==>
            o.value.status == 200 && o.value.body.JsonValue? && o.value.headers == JsonHeaders)
  {
    ApiRouteGuards(req, platform);
    if HasBearer(req) && HasInstanceUrl(req) && IsDataPath(req.path) {
      ApiRouteData(req, platform);
    }
  }

  /** The header checks and the fallback of the protected routes. */
  lemma ApiRouteGuards(req: Request, platform: Platform)
    ensures var o := ApiRoute(req, platform);
      && (!HasBearer(req) ==> o == Ok(Response(401, Text("Unauthorized"), TextHeaders)))
      && (HasBearer(req) && !HasInstanceUrl(req) ==> o == Ok(Response(400, Text("Instance URL required"), TextHeaders)))
      && (HasBearer(req) && HasInstanceUrl(req) && !IsDataPath(req.path) ==> o == Ok(Response(404, Text("Not Found"), TextHeaders)))
  {
    ResponseShapes(401, NoBody, "Unauthorized");
    ResponseShapes(400, NoBody, "Instance URL required");
    ResponseShapes(404, NoBody, "Not Found");
  }

  /** What `Relay` answers, when it answers, is a JSON 200. */
  lemma RelayIsJson()
    ensures forall o: Outcome<Json> :: Relay(o).Ok? ==>
      Relay(o).value.status == 200 && Relay(o).value.body.JsonValue? && Relay(o).value.headers == JsonHeaders
  {
    ResponseShapes(200, NoBody, "");
  }

  /** The three data routes either throw or answer with a JSON 200. */
  lemma ApiRouteData(req: Request, platform: Platform)
    requires HasBearer(req) && HasInstanceUrl(req) && IsDataPath(req.path)
    ensures var o := ApiRoute(req, platform);
      o.Ok? ==> o.value.status == 200 && o.value.body.JsonValue? && o.value.headers == JsonHeaders
  {
    RelayIsJson();
  }

  /** The dispatch of `handleRequest`: preflight, then `/auth/url`, then `/auth/callback`, then the protected routes. */
  lemma Dispatch(req: Request, env: Env, platform: Platform)
    ensures req.httpMethod == "OPTIONS" ==> HandleRequest(req, env, platform) == Response(200, NoBody, CorsHeaders)
    ensures req.httpMethod != "OPTIONS" && req.path == AuthUrlPath ==> HandleRequest(req, env, platform) == AuthUrlRoute(env, platform)
    ensures req.httpMethod != "OPTIONS" && req.path == CallbackPath ==> HandleRequest(req, env, platform) == Catch(CallbackRoute(req, env, platform))
    ensures Protected(req) ==> HandleRequest(req, env, platform) == Catch(ApiRoute(req, platform))
  {
  }

  /** Preflight never reaches the routes: the answer is the same empty 200 whatever the path, headers, environment or platform. */
  lemma PreflightShortCircuits(req: Request, env: Env, platform: Platform)
    requires req.httpMethod == "OPTIONS"
    ensures HandleRequest(req, env, platform) == Response(200, NoBody, CorsHeaders)
    ensures Fetch(req, env, platform) == Response(200, NoBody, CorsHeaders)
  {
    Dispatch(req, env, platform);
  }

  /** Every response, success or error, carries the CORS headers; a text body is labelled as plain text and a JSON body as JSON; only preflight has no body. */
  lemma CorsOnEveryResponse(req: Request, env: Env, platform: Platform)
    ensures var r := HandleRequest(req, env, platform);
      && HasCors(r.headers)
      && "Access-Control-Allow-Origin" in r.headers && r.headers["Access-Control-Allow-Origin"] == "*"
      && (r.body.NoBody? <==> req.httpMethod == "OPTIONS")
      && (r.body.NoBody? ==> r.status == 200 && r.headers == CorsHeaders)
      && (r.body.Text? ==> r.headers == TextHeaders)
      && (r.body.ErrorJson? || r.body.JsonValue? || r.body.AuthUrlJson? ==> r.headers == JsonHeaders)
  {
    Dispatch(req, env, platform);
    HeaderSets();
    if req.httpMethod == "OPTIONS" {
    } else if req.path == AuthUrlPath {
      AuthUrlRouteFacts(env, platform);
    } else if req.path == CallbackPath {
      CallbackRouteFacts(req, env, platform);
      ResponseShapes(500, NoBody, "");
    } else {
      ApiRouteFacts(req, platform);
      ResponseShapes(500, NoBody, "");
    }
  }

  /** The statuses the gateway answers with. */
  lemma StatusCodes(req: Request, env: Env, platform: Platform)
    ensures HandleRequest(req, env, platform).status in {200, 400, 401, 404, 405, 500}
  {
    Dispatch(req, env, platform);
    HeaderSets();
    if req.httpMethod == "OPTIONS" {
    } else if req.path == AuthUrlPath {
      AuthUrlRouteFacts(env, platform);
    } else if req.path == CallbackPath {
      CallbackRouteFacts(req, env, platform);
      ResponseShapes(500, NoBody, "");
    } else {
      ApiRouteFacts(req, platform);
      ResponseShapes(500, NoBody, "");
    }
  }

  /** 401 exactly when a protected request lacks a `Bearer ` authorization header; the body is the text "Unauthorized". */
  lemma UnauthorizedIff(req: Request, env: Env, platform: Platform)
    ensures HandleRequest(req, env, platform).status == 401 <==> Protected(req) && !HasBearer(req)
    ensures Protected(req) && !HasBearer(req) ==> HandleRequest(req, env, platform) == TextResponse(401, "Unauthorized")
  {
    Dispatch(req, env, platform);
    HeaderSets();
    if req.httpMethod == "OPTIONS" {
    } else if req.path == AuthUrlPath {
      AuthUrlRouteFacts(env, platform);
    } else if req.path == CallbackPath {
      CallbackRouteFacts(req, env, platform);
      ResponseShapes(500, NoBody, "");
    } else {
      ApiRouteFacts(req, platform);
      ResponseShapes(500, NoBody, "");
    }
  }

  /** 405 exactly for a callback whose method is neither POST nor OPTIONS. */
  lemma MethodNotAllowedIff(req: Request, env: Env, platform: Platform)
    ensures HandleRequest(req, env, platform).status == 405
      <==> req.path == CallbackPath && req.httpMethod != "POST" && req.httpMethod != "OPTIONS"
    ensures HandleRequest(req, env, platform).status == 405
      ==> HandleRequest(req, env, platform) == JsonResponse(405, ErrorJson(Message("Method not allowed")))
  {
    Dispatch(req, env, platform);
    HeaderSets();
    if req.httpMethod == "OPTIONS" {
    } else if req.path == AuthUrlPath {
      AuthUrlRouteFacts(env, platform);
    } else if req.path == CallbackPath {
      CallbackRouteFacts(req, env, platform);
      ResponseShapes(500, NoBody, "");
    } else {
      ApiRouteFacts(req, platform);
      ResponseShapes(500, NoBody, "");
    }
  }

  /** 404 exactly for an admitted request to a path that is not one of the three data routes. */
  lemma NotFoundIff(req: Request, env: Env, platform: Platform)
    ensures HandleRequest(req, env, platform).status == 404 <==> Admitted(req) && !IsDataPath(req.path)
    ensures HandleRequest(req, env, platform).status == 404 ==> HandleRequest(req, env, platform) == TextResponse(404, "Not Found")
  {
    Dispatch(req, env, platform);
    HeaderSets();
    if req.httpMethod == "OPTIONS" {
    } else if req.path == AuthUrlPath {
      AuthUrlRouteFacts(env, platform);
    } else if req.path == CallbackPath {
      CallbackRouteFacts(req, env, platform);
      ResponseShapes(500, NoBody, "");
    } else {
      ApiRouteFacts(req, platform);
      ResponseShapes(500, NoBody, "");
    }
  }

  /** 400 exactly when a protected request with a bearer token lacks the instance URL, or the token endpoint rejects a faultless callback. */
  lemma BadRequestIff(req: Request, env: Env, platform: Platform)
    ensures HandleRequest(req, env, platform).status == 400
      <==> ((Protected(req) && HasBearer(req) && !HasInstanceUrl(req))
            || (req.path == CallbackPath && ExchangeRejected(req, env, platform)))
    ensures Protected(req) && HasBearer(req) && !HasInstanceUrl(req)
      ==> HandleRequest(req, env, platform) == TextResponse(400, "Instance URL required")
  {
    Dispatch(req, env, platform);
    HeaderSets();
    if req.httpMethod == "OPTIONS" {
    } else if req.path == AuthUrlPath {
      AuthUrlRouteFacts(env, platform);
    } else if req.path == CallbackPath {
      CallbackRouteFacts(req, env, platform);
      ResponseShapes(500, NoBody, "");
    } else {
      ApiRouteFacts(req, platform);
      ResponseShapes(500, NoBody, "");
    }
  }

  /**
   * A callback without a usable code or verifier is a 500 carrying the
   * body's fault, and the answer is the same on every platform: the token
   * endpoint is not called.
   */
  lemma CallbackValidatesBeforeExchange(req: Request, env: Env, platform: Platform, other: Platform)
    requires req.path == CallbackPath && req.httpMethod == "POST" && CallbackFault(req.body).Some?
    ensures HandleRequest(req, env, platform) == JsonResponse(500, ErrorJson(CallbackFault(req.body).value))
    ensures HandleRequest(req, env, other) == HandleRequest(req, env, platform)
  {
    Dispatch(req, env, platform);
    Dispatch(req, env, other);
    CallbackRouteFacts(req, env, platform);
    CallbackRouteFacts(req, env, other);
  }

  /** The fields of the token form, looked up by name. */
  lemma TokenFormValues(code: string, env: Env, verifier: string)
    ensures var form := TokenForm(code, env, verifier);
      && ParamValue(form, "grant_type") == Some("authorization_code")
      && ParamValue(form, "client_id") == Some(ToJsString(env.clientId))
      && ParamValue(form, "client_secret") == Some(ToJsString(env.clientSecret))
      && ParamValue(form, "redirect_uri") == Some(ToJsString(env.redirectUri))
      && ParamValue(form, "code") == Some(code)
      && ParamValue(form, "code_verifier") == Some(verifier)
  {
    var form := TokenForm(code, env, verifier);
    ParamValueAt(form, 0);
    ParamValueAt(form, 1);
    ParamValueAt(form, 2);
    ParamValueAt(form, 3);
    ParamValueAt(form, 4);
    ParamValueAt(form, 5);
  }

  /** The authorization endpoint on the Salesforce login host. */
  lemma AuthorizeEndpoint()
    ensures SfAuthUrl == "https://login.salesforce.com/services/oauth2/authorize"
  {
  }

  /** The token endpoint on the Salesforce login host. */
  lemma TokenEndpoint()
    ensures SfTokenUrl == "https://login.salesforce.com/services/oauth2/token"
  {
  }

  /** The token request is one authorization-code grant: a form POST to the token endpoint carrying the code and verifier as given and the client's credentials as `String` renders them. */
  lemma TokenCallIsCodeGrant(code: string, env: Env, verifier: string)
    ensures var call := TokenCall(code, env, verifier);
      && call.url == "https://login.salesforce.com/services/oauth2/token"
      && call.httpMethod == "POST"
      && call.headers == map["Content-Type" := "application/x-www-form-urlencoded"]
      && call.body.Form? && |call.body.fields| == 6
      && ParamValue(call.body.fields, "grant_type") == Some("authorization_code")
      && ParamValue(call.body.fields, "client_id") == Some(ToJsString(env.clientId))
      && ParamValue(call.body.fields, "client_secret") == Some(ToJsString(env.clientSecret))
      && ParamValue(call.body.fields, "redirect_uri") == Some(ToJsString(env.redirectUri))
      && ParamValue(call.body.fields, "code") == Some(code)
      && ParamValue(call.body.fields, "code_verifier") == Some(verifier)
  {
    TokenEndpoint();
    TokenFormValues(code, env, verifier);
  }

  /** A faultless callback makes that token request with the body's code and verifier, and answers as `TokenResponse` says. */
  lemma CallbackExchangesCode(req: Request, env: Env, platform: Platform)
    requires req.path == CallbackPath && req.httpMethod == "POST" && CallbackFault(req.body).None?
    ensures req.body.JsonObject? && Truthy(Prop(req.body.fields, "code")) && Truthy(Prop(req.body.fields, "codeVerifier"))
    ensures CallbackCode(req.body) == Prop(req.body.fields, "code").s
    ensures CallbackVerifier(req.body) == Prop(req.body.fields, "codeVerifier").s
    ensures HandleRequest(req, env, platform)
      == TokenResponse(platform.fetch(TokenCall(CallbackCode(req.body), env, CallbackVerifier(req.body))))
  {
    Dispatch(req, env, platform);
    CallbackRouteFacts(req, env, platform);
  }

  /** The token the data routes forward. */
  function ForwardedToken(req: Request): string
    requires HasBearer(req)
  {
    BearerToken(HeaderGet(req, "Authorization").s)
  }

  /** The one data API call an admitted request for `query` makes: a GET of the versioned endpoint with `?q=` and the encoded query, which decodes back to the query. */
  predicate IsDataCall(call: OutgoingCall, req: Request, endpoint: string, query: string)
    requires Admitted(req)
  {
    && call.url == HeaderGet(req, "SF-Instance-URL").s + "/services/data/v58.0" + endpoint + "?q=" + UriComponent.EncodeUriComponent(query)
    && call.httpMethod == "GET"
    && call.headers == map["Authorization" := "Bearer " + ForwardedToken(req), "Content-Type" := "application/json"]
    && call.body == NoCallBody
    && UriComponent.DecodeUriComponent(UriComponent.EncodeUriComponent(query)) == Some(query)
  }

  /** The versioned data URL, with its pieces spelled out. */
  lemma DataUrl(instanceUrl: string, token: string, endpoint: string, encoded: string)
    ensures SfCall(instanceUrl, token, endpoint + "?q=" + encoded, "GET", None).url
      == instanceUrl + "/services/data/v58.0" + endpoint + "?q=" + encoded
  {
  }

  /** Account search sends the SOSL for the `term` parameter (empty when missing) and answers as `DataResponse` says. */
  lemma SearchRelaysSosl(req: Request, env: Env, platform: Platform)
    requires Admitted(req) && req.path == SearchPath
    ensures var sosl := SearchSosl(OrElse(QueryGet(req, "term"), ""));
      var call := SfCall(HeaderGet(req, "SF-Instance-URL").s, ForwardedToken(req), "/search" + "?q=" + UriComponent.EncodeUriComponent(sosl), "GET", None);
      && IsDataCall(call, req, "/search", sosl)
      && HandleRequest(req, env, platform) == DataResponse(platform.fetch(call))
  {
    var sosl := SearchSosl(OrElse(QueryGet(req, "term"), ""));
    var instanceUrl, token := HeaderGet(req, "SF-Instance-URL").s, ForwardedToken(req);
    UriComponent.DecodeEncodeUriComponent(sosl);
    DataUrl(instanceUrl, token, "/search", UriComponent.EncodeUriComponent(sosl));
    Dispatch(req, env, platform);
    assert "/search" + "?q=" == "/search?q=";
    RelayedRequest(instanceUrl, token, "/search?q=" + UriComponent.EncodeUriComponent(sosl), platform);
  }

  /** The price-book list sends its fixed SOQL query and answers as `DataResponse` says. */
  lemma PricebooksRelaysSoql(req: Request, env: Env, platform: Platform)
    requires Admitted(req) && req.path == PricebooksPath
    ensures var call := SfCall(HeaderGet(req, "SF-Instance-URL").s, ForwardedToken(req), "/query" + "?q=" + UriComponent.EncodeUriComponent(PricebooksSoql), "GET", None);
      && IsDataCall(call, req, "/query", "SELECT Id, Name FROM Pricebook2")
      && HandleRequest(req, env, platform) == DataResponse(platform.fetch(call))
  {
    var instanceUrl, token := HeaderGet(req, "SF-Instance-URL").s, ForwardedToken(req);
    UriComponent.DecodeEncodeUriComponent(PricebooksSoql);
    DataUrl(instanceUrl, token, "/query", UriComponent.EncodeUriComponent(PricebooksSoql));
    Dispatch(req, env, platform);
    assert "/query" + "?q=" == "/query?q=";
    RelayedRequest(instanceUrl, token, "/query?q=" + UriComponent.EncodeUriComponent(PricebooksSoql), platform);
  }

  /** Price-book entries need a non-empty `pricebookId`; without one the answer is a 500 whatever the platform. */
  lemma PricebookEntriesRequireId(req: Request, env: Env, platform: Platform, other: Platform)
    requires Admitted(req) && req.path == PricebookEntriesPath && !Truthy(QueryGet(req, "pricebookId"))
    ensures HandleRequest(req, env, platform) == JsonResponse(500, ErrorJson(Message("Price book ID is required")))
    ensures HandleRequest(req, env, other) == HandleRequest(req, env, platform)
  {
    Dispatch(req, env, platform);
    Dispatch(req, env, other);
  }

  /** With an id, the entries query for that price book is sent and answered as `DataResponse` says. */
  lemma PricebookEntriesRelaySoql(req: Request, env: Env, platform: Platform)
    requires Admitted(req) && req.path == PricebookEntriesPath && Truthy(QueryGet(req, "pricebookId"))
    ensures var soql := PricebookEntriesSoql(QueryGet(req, "pricebookId").s);
      var call := SfCall(HeaderGet(req, "SF-Instance-URL").s, ForwardedToken(req), "/query" + "?q=" + UriComponent.EncodeUriComponent(soql), "GET", None);
      && IsDataCall(call, req, "/query", soql)
      && HandleRequest(req, env, platform) == DataResponse(platform.fetch(call))
  {
    var soql := PricebookEntriesSoql(QueryGet(req, "pricebookId").s);
    var instanceUrl, token := HeaderGet(req, "SF-Instance-URL").s, ForwardedToken(req);
    UriComponent.DecodeEncodeUriComponent(soql);
    DataUrl(instanceUrl, token, "/query", UriComponent.EncodeUriComponent(soql));
    Dispatch(req, env, platform);
    assert "/query" + "?q=" == "/query?q=";
    RelayedRequest(instanceUrl, token, "/query?q=" + UriComponent.EncodeUriComponent(soql), platform);
  }

  /** The forwarded token is the text after `Bearer ` up to the next space. */
  lemma BearerTokenIsSecondWord(auth: string)
    requires StartsWith(auth, "Bearer ")
    ensures BearerToken(auth) == TakeUntil(auth[7..], ' ')
  {
    assert auth == "Bearer " + auth[7..];
    SplitSecond("Bearer ", auth[7..], ' ');
  }

  /** A token without spaces is forwarded unchanged. */
  lemma BearerTokenRoundTrip(token: string)
    requires ' ' !in token
    ensures BearerToken("Bearer " + token) == token
  {
    var auth := "Bearer " + token;
    assert auth[7..] == token;
    BearerTokenIsSecondWord(auth);
  }

  /**
   * `/auth/url` answers every method but OPTIONS: a 500 naming the first
   * missing binding (the client id is checked first), otherwise a 200 with
   * the authorization URL and its verifier.
   */
  lemma AuthUrlEndpoint(req: Request, env: Env, platform: Platform)
    requires req.httpMethod != "OPTIONS" && req.path == AuthUrlPath
    ensures var r := HandleRequest(req, env, platform);
      && (r.status == 200 <==> Truthy(env.clientId) && Truthy(env.redirectUri))
      && (!Truthy(env.clientId) ==> r == JsonResponse(500, ErrorJson(Message("SF_CLIENT_ID is not configured"))))
      && (Truthy(env.clientId) && !Truthy(env.redirectUri) ==> r == JsonResponse(500, ErrorJson(Message("REDIRECT_URI is not configured"))))
      && (r.status == 200 ==> r.body.AuthUrlJson? && GetOAuthUrl(env, platform) == Ok(AuthUrl(r.body.url, r.body.codeVerifier)))
  {
    Dispatch(req, env, platform);
    AuthUrlRouteFacts(env, platform);
  }

  /** The authorization query, looked up by name; it has no `code_verifier`. */
  lemma AuthorizeParamValues(clientId: string, redirectUri: string, state: string, challenge: string)
    ensures var params := AuthorizeParams(clientId, redirectUri, state, challenge);
      && ParamValue(params, "response_type") == Some("code")
      && ParamValue(params, "client_id") == Some(clientId)
      && ParamValue(params, "redirect_uri") == Some(redirectUri)
      && ParamValue(params, "scope") == Some("api refresh_token")
      && ParamValue(params, "state") == Some(state)
      && ParamValue(params, "code_challenge") == Some(challenge)
      && ParamValue(params, "code_challenge_method") == Some("S256")
      && ParamValue(params, "code_verifier") == None
  {
    var params := AuthorizeParams(clientId, redirectUri, state, challenge);
    ParamValueAt(params, 0);
    ParamValueAt(params, 1);
    ParamValueAt(params, 2);
    ParamValueAt(params, 3);
    ParamValueAt(params, 4);
    ParamValueAt(params, 5);
    ParamValueAt(params, 6);
    ParamValueAbsent(params, "code_verifier");
  }

  /** The authorization request goes to the authorize endpoint with the client id, redirect URI, scope, S256 method and a state from `randomUUID`; the verifier is not in it. */
  lemma AuthorizationRequestParams(env: Env, platform: Platform)
    requires Truthy(env.clientId) && Truthy(env.redirectUri)
    ensures var a := GetOAuthUrl(env, platform).value;
      var params := a.url.params;
      && a.url.base == "https://login.salesforce.com/services/oauth2/authorize"
      && ParamValue(params, "response_type") == Some("code")
      && ParamValue(params, "client_id") == Some(env.clientId.s)
      && ParamValue(params, "redirect_uri") == Some(env.redirectUri.s)
      && ParamValue(params, "scope") == Some("api refresh_token")
      && ParamValue(params, "state") == Some(platform.uuid)
      && ParamValue(params, "code_challenge_method") == Some("S256")
      && ParamValue(params, "code_verifier") == None
  {
    var pkce := Pkce.GeneratePkce(platform.random, platform.sha256);
    var params := AuthorizeParams(env.clientId.s, env.redirectUri.s, platform.uuid, pkce.challenge);
    assert GetOAuthUrl(env, platform).value == AuthUrl(UrlWithQuery(SfAuthUrl, params), pkce.verifier);
    AuthorizeParamValues(env.clientId.s, env.redirectUri.s, platform.uuid, pkce.challenge);
    AuthorizeEndpoint();
  }

  /**
   * The authorization request is a PKCE request (RFC 7636): its
   * `code_challenge` is the S256 challenge of the verifier returned beside
   * the URL, and that verifier has 128 unreserved characters.
   */
  lemma AuthorizationRequestIsPkce(env: Env, platform: Platform)
    requires Truthy(env.clientId) && Truthy(env.redirectUri)
    ensures var a := GetOAuthUrl(env, platform).value;
      && ParamValue(a.url.params, "code_challenge") == Some(Base64Url.UnpaddedBase64Url(platform.sha256(Utf8.Encode(a.codeVerifier))))
      && |a.codeVerifier| == 128
      && (forall i :: 0 <= i < |a.codeVerifier| ==> Pkce.IsUnreserved(a.codeVerifier[i]))
  {
    var pkce := Pkce.GeneratePkce(platform.random, platform.sha256);
    Pkce.PkcePairWellFormed(platform.random, platform.sha256);
    AuthorizeParamValues(env.clientId.s, env.redirectUri.s, platform.uuid, pkce.challenge);
    AuthorizeEndpoint();
  }
}
