/**
 * The browser client of the gateway (public/js/api.js): an `API` object that
 * keeps the Salesforce access token and instance URL in its fields and in
 * `localStorage`, attaches them to every call to the gateway, and forgets
 * them when the gateway answers 401.
 *
 * `localStorage` is the `storage` field; the browser's `fetch` to the
 * gateway is a parameter of each call, from the outgoing call to the reply.
 */
module ClientApi {
  import opened JsValues
  import opened Http
  import UriComponent

  /** The contents of `localStorage`. */
  type Storage = map<string, string>

  const TokenKey := "sf_access_token"
  const InstanceKey := "sf_instance_url"

  /** `localStorage.getItem(key)`: the stored text, or `null`. */
  function StorageGet(s: Storage, key: string): JsVal {
    if key in s then Str(s[key]) else Null
  }

  /** The storage after `setAuth`: `setItem` stores `String(value)` of each credential. */
  function StoreAuth(s: Storage, token: JsVal, instance: JsVal): (r: Storage)
    ensures StorageGet(r, TokenKey) == Str(ToJsString(token))
    ensures StorageGet(r, InstanceKey) == Str(ToJsString(instance))
    ensures forall k :: k != TokenKey && k != InstanceKey ==> StorageGet(r, k) == StorageGet(s, k)
  {
    s[TokenKey := ToJsString(token)][InstanceKey := ToJsString(instance)]
  }

  /** The storage after `clearAuth`: both credentials removed, every other item kept. */
  function ClearedStorage(s: Storage): (r: Storage)
    ensures StorageGet(r, TokenKey) == Null && StorageGet(r, InstanceKey) == Null
    ensures forall k :: k != TokenKey && k != InstanceKey ==> StorageGet(r, k) == StorageGet(s, k)
  {
    s - {TokenKey, InstanceKey}
  }

  /** The `options` of `request`: method (fetch's default is GET), headers and an optional JSON body. */
  datatype RequestOptions = RequestOptions(httpMethod: string, headers: Headers, body: CallBody)

  /** `request(endpoint)` with no options. */
  const NoOptions := RequestOptions("GET", map[], NoCallBody)

  /**
   * The headers `request` sends: when the token is truthy, the caller's
   * headers with `Authorization: Bearer <token>` and `SF-Instance-URL`
   * added (replacing any the caller gave); otherwise the caller's headers
   * as they are.
   */
  function AttachCredentials(h: Headers, token: JsVal, instance: JsVal): (r: Headers)
    ensures Truthy(token) ==> "Authorization" in r && r["Authorization"] == "Bearer " + token.s
    ensures Truthy(token) ==> "SF-Instance-URL" in r && r["SF-Instance-URL"] == ToJsString(instance)
    ensures Truthy(token) ==> forall k :: k in h && k != "Authorization" && k != "SF-Instance-URL" ==> k in r && r[k] == h[k]
    ensures Truthy(token) ==> r.Keys == h.Keys + {"Authorization", "SF-Instance-URL"}
    ensures !Truthy(token) ==> r == h
  {
    if Truthy(token)
    then h + map["Authorization" := "Bearer " + ToJsString(token), "SF-Instance-URL" := ToJsString(instance)]
    else h
  }

  /** The call `request` makes: `${workerUrl}${endpoint}` with the options and the credentials attached. */
  function RequestCall(workerUrl: string, token: JsVal, instance: JsVal, endpoint: string, options: RequestOptions): OutgoingCall {
    OutgoingCall(workerUrl + endpoint, options.httpMethod, AttachCredentials(options.headers, token, instance), options.body)
  }

  /** The gateway answered 401. */
  predicate IsUnauthorized(reply: Upstream) {
    reply.Reply? && reply.status == 401
  }

  /**
   * What `request` settles to for a reply: an ok reply gives its JSON; a 401
   * throws "Authentication required"; any other failure throws the reply's
   * `error` member when it is truthy and `API request failed: <status text>`
   * otherwise, or the engine's error when the body cannot be read.
   */
  function Classify(reply: Upstream): (r: Outcome<Json>)
    ensures r.Ok? <==> reply.Reply? && IsOkStatus(reply.status) && !reply.body.NotJson?
    ensures r.Ok? ==> r.value == reply.body
    ensures IsUnauthorized(reply) ==> r == Thrown(Message("Authentication required"))
  {
    match reply
    case NetworkError => Thrown(EngineMessage)
    case Reply(status, statusText, body) =>
      if IsOkStatus(status) then ParseJson(body)
      else if status == 401 then Thrown(Message("Authentication required"))
      else match ParseJson(body)
        case Thrown(m) => Thrown(m)
        case Ok(j) =>
          match Member(j, "error")
          case Thrown(m) => Thrown(m)
          case Ok(e) => Thrown(Message(OrElse(e, "API request failed: " + statusText)))
  }

  /** `JSON.stringify({ code, codeVerifier })`: a member whose value is `undefined` is left out. */
  function CallbackPayload(code: JsVal, codeVerifier: JsVal): (r: JsObject)
    ensures "code" in r <==> !code.Undefined?
    ensures "codeVerifier" in r <==> !codeVerifier.Undefined?
    ensures Prop(r, "code") == code && Prop(r, "codeVerifier") == codeVerifier
  {
    var withCode: JsObject := if code.Undefined? then map[] else map["code" := code];
    if codeVerifier.Undefined? then withCode else withCode["codeVerifier" := codeVerifier]
  }

  /** The options `handleCallback` passes: a JSON POST of the code and verifier. */
  function CallbackOptions(code: JsVal, codeVerifier: JsVal): RequestOptions {
    RequestOptions("POST", map["Content-Type" := "application/json"], JsonText(CallbackPayload(code, codeVerifier)))
  }

  /** The endpoint `searchAccounts(term)` requests. */
  function SearchEndpoint(term: string): string {
    "/api/accounts/search?term=" + UriComponent.EncodeUriComponent(term)
  }

  /** The endpoint `getPriceBookEntries(priceBookId)` requests. */
  function PriceBookEntriesEndpoint(priceBookId: string): string {
    "/api/pricebookentries?pricebookId=" + UriComponent.EncodeUriComponent(priceBookId)
  }

  /** The credentials `handleCallback` stores from a token response: `response.access_token` and `response.instance_url`, or the `TypeError` of reading them from `null`. */
  function TokenFields(response: Json): Outcome<(JsVal, JsVal)>
    requires !response.NotJson?
  {
    match response
    case JsonNull => Thrown(EngineMessage)
    case JsonScalar => Ok((Undefined, Undefined))
    case JsonObject(f) => Ok((Prop(f, "access_token"), Prop(f, "instance_url")))
  }

  /** What `handleCallback` settles to for the gateway's reply. */
  function CallbackOutcome(reply: Upstream): Outcome<Json> {
    match Classify(reply)
    case Thrown(m) => Thrown(m)
    case Ok(j) =>
      if j.NotJson? then Thrown(EngineMessage)
      else match TokenFields(j)
        case Thrown(m) => Thrown(m)
        case Ok(_) => Ok(j)
  }

  class Api {
    const workerUrl: string
    var accessToken: JsVal
    var instanceUrl: JsVal
    var storage: Storage

    /** `new API(workerUrl)`: the credentials are read back from storage. */
    constructor(workerUrl: string, storage: Storage)
      ensures this.workerUrl == workerUrl && this.storage == storage
      ensures accessToken == StorageGet(storage, TokenKey)
      ensures instanceUrl == StorageGet(storage, InstanceKey)
      ensures IsAuthenticated() <==> Truthy(StorageGet(storage, TokenKey))
    {
      this.workerUrl := workerUrl;
      this.storage := storage;
      accessToken := StorageGet(storage, TokenKey);
      instanceUrl := StorageGet(storage, InstanceKey);
    }

    /** `isAuthenticated()`: the token field is truthy. */
    predicate IsAuthenticated()
      reads this
      ensures IsAuthenticated() <==> accessToken.Str? && accessToken.s != ""
    {
      Truthy(accessToken)
    }

    /** `setAuth(accessToken, instanceUrl)`: both fields set and both stored as text. */
    method SetAuth(token: JsVal, instance: JsVal)
      modifies this
      ensures accessToken == token && instanceUrl == instance
      ensures storage == StoreAuth(old(storage), token, instance)
      ensures IsAuthenticated() <==> Truthy(token)
    {
      accessToken := token;
      instanceUrl := instance;
      storage := storage[TokenKey := ToJsString(token)];
      storage := storage[InstanceKey := ToJsString(instance)];
    }

    /** `clearAuth()`: both fields `null` and both items removed. */
    method ClearAuth()
      modifies this
      ensures accessToken == Null && instanceUrl == Null
      ensures storage == ClearedStorage(old(storage))
      ensures !IsAuthenticated()
    {
      accessToken := Null;
      instanceUrl := Null;
      storage := storage - {TokenKey};
      storage := storage - {InstanceKey};
    }

    /**
     * `request(endpoint, options)`: one call to the gateway; the result is
     * `Classify` of the reply, and a 401 clears the credentials while any
     * other reply leaves the state as it was.
     */
    method Request(endpoint: string, options: RequestOptions, fetch: OutgoingCall -> Upstream) returns (r: Outcome<Json>)
      modifies this
      ensures var reply := fetch(RequestCall(workerUrl, old(accessToken), old(instanceUrl), endpoint, options));
        && r == Classify(reply)
        && (IsUnauthorized(reply) ==> accessToken == Null && instanceUrl == Null && storage == ClearedStorage(old(storage)))
        && (!IsUnauthorized(reply) ==> accessToken == old(accessToken) && instanceUrl == old(instanceUrl) && storage == old(storage))
      ensures var reply := fetch(RequestCall(workerUrl, old(accessToken), old(instanceUrl), endpoint, options));
        && (IsUnauthorized(reply) ==> !IsAuthenticated())
        && (!IsUnauthorized(reply) ==> IsAuthenticated() == old(IsAuthenticated()))
    {
      var headers := options.headers;
      if Truthy(accessToken) {
        headers := headers + map["Authorization" := "Bearer " + ToJsString(accessToken), "SF-Instance-URL" := ToJsString(instanceUrl)];
      }
      var reply := fetch(OutgoingCall(workerUrl + endpoint, options.httpMethod, headers, options.body));
      if reply.NetworkError? {
        return Thrown(EngineMessage);
      }
      if !IsOkStatus(reply.status) {
        if reply.status == 401 {
          ClearAuth();
          return Thrown(Message("Authentication required"));
        }
        if reply.body.NotJson? {
          return Thrown(EngineMessage);
        }
        var error := Member(reply.body, "error");
        if error.Thrown? {
          return Thrown(error.error);
        }
        return Thrown(Message(OrElse(error.value, "API request failed: " + reply.statusText)));
      }
      r := ParseJson(reply.body);
    }

    /** `getAuthUrl()`. */
    method GetAuthUrl(fetch: OutgoingCall -> Upstream) returns (r: Outcome<Json>)
      modifies this
      ensures var reply := fetch(RequestCall(workerUrl, old(accessToken), old(instanceUrl), "/auth/url", NoOptions));
        && r == Classify(reply)
        && (IsUnauthorized(reply) ==> accessToken == Null && instanceUrl == Null && storage == ClearedStorage(old(storage)))
        && (!IsUnauthorized(reply) ==> accessToken == old(accessToken) && instanceUrl == old(instanceUrl) && storage == old(storage))
    {
      r := Request("/auth/url", NoOptions, fetch);
    }

    /**
     * `handleCallback(code, codeVerifier)`: posts both to the gateway and,
     * only once the exchange has succeeded, stores the reply's
     * `access_token` and `instance_url`, whatever they are.
     */
    method HandleCallback(code: JsVal, codeVerifier: JsVal, fetch: OutgoingCall -> Upstream) returns (r: Outcome<Json>)
      modifies this
      ensures var reply := fetch(RequestCall(workerUrl, old(accessToken), old(instanceUrl), "/auth/callback", CallbackOptions(code, codeVerifier)));
        && r == CallbackOutcome(reply)
        && (r.Ok? ==> var fields := TokenFields(r.value).value;
              accessToken == fields.0 && instanceUrl == fields.1 && storage == StoreAuth(old(storage), fields.0, fields.1))
        && (IsUnauthorized(reply) ==> accessToken == Null && instanceUrl == Null && storage == ClearedStorage(old(storage)))
        && (r.Thrown? && !IsUnauthorized(reply) ==> accessToken == old(accessToken) && instanceUrl == old(instanceUrl) && storage == old(storage))
      ensures r.Ok? ==> (IsAuthenticated() <==> Truthy(TokenFields(r.value).value.0))
      ensures IsUnauthorized(fetch(RequestCall(workerUrl, old(accessToken), old(instanceUrl), "/auth/callback", CallbackOptions(code, codeVerifier)))) ==> !IsAuthenticated()
    {
      var response := Request("/auth/callback", CallbackOptions(code, codeVerifier), fetch);
      if response.Thrown? {
        return response;
      }
      if response.value.NotJson? {
        return Thrown(EngineMessage);
      }
      var fields := TokenFields(response.value);
      if fields.Thrown? {
        return Thrown(fields.error);
      }
      SetAuth(fields.value.0, fields.value.1);
      r := response;
    }

    /** `searchAccounts(term)`. */
    method SearchAccounts(term: string, fetch: OutgoingCall -> Upstream) returns (r: Outcome<Json>)
      modifies this
      ensures var reply := fetch(RequestCall(workerUrl, old(accessToken), old(instanceUrl), SearchEndpoint(term), NoOptions));
        && r == Classify(reply)
        && (IsUnauthorized(reply) ==> accessToken == Null && instanceUrl == Null && storage == ClearedStorage(old(storage)))
        && (!IsUnauthorized(reply) ==> accessToken == old(accessToken) && instanceUrl == old(instanceUrl) && storage == old(storage))
    {
      r := Request("/api/accounts/search?term=" + UriComponent.EncodeUriComponent(term), NoOptions, fetch);
    }

    /** `getPriceBooks()`. */
    method GetPriceBooks(fetch: OutgoingCall -> Upstream) returns (r: Outcome<Json>)
      modifies this
      ensures var reply := fetch(RequestCall(workerUrl, old(accessToken), old(instanceUrl), "/api/pricebooks", NoOptions));
        && r == Classify(reply)
        && (IsUnauthorized(reply) ==> accessToken == Null && instanceUrl == Null && storage == ClearedStorage(old(storage)))
        && (!IsUnauthorized(reply) ==> accessToken == old(accessToken) && instanceUrl == old(instanceUrl) && storage == old(storage))
    {
      r := Request("/api/pricebooks", NoOptions, fetch);
    }

    /** `getPriceBookEntries(priceBookId)`. */
    method GetPriceBookEntries(priceBookId: string, fetch: OutgoingCall -> Upstream) returns (r: Outcome<Json>)
      modifies this
      ensures var reply := fetch(RequestCall(workerUrl, old(accessToken), old(instanceUrl), PriceBookEntriesEndpoint(priceBookId), NoOptions));
        && r == Classify(reply)
        && (IsUnauthorized(reply) ==> accessToken == Null && instanceUrl == Null && storage == ClearedStorage(old(storage)))
        && (!IsUnauthorized(reply) ==> accessToken == old(accessToken) && instanceUrl == old(instanceUrl) && storage == old(storage))
    {
      r := Request("/api/pricebookentries?pricebookId=" + UriComponent.EncodeUriComponent(priceBookId), NoOptions, fetch);
    }
  }

  /** Clearing twice is clearing once. */
  lemma ClearIsIdempotent(s: Storage)
    ensures ClearedStorage(ClearedStorage(s)) == ClearedStorage(s)
  {
  }

  /** A session stored by `setAuth` is what a new `API` object reads back, so a reload keeps the user signed in; after `clearAuth` it reads nothing. */
  lemma SessionSurvivesReload(s: Storage, token: string, instance: string)
    ensures StorageGet(StoreAuth(s, Str(token), Str(instance)), TokenKey) == Str(token)
    ensures StorageGet(StoreAuth(s, Str(token), Str(instance)), InstanceKey) == Str(instance)
    ensures StorageGet(ClearedStorage(StoreAuth(s, Str(token), Str(instance))), TokenKey) == Null
    ensures StorageGet(ClearedStorage(StoreAuth(s, Str(token), Str(instance))), InstanceKey) == Null
  {
  }

  /**
   * A token response without `access_token` yields an `undefined` token
   * field, so `handleCallback` leaves the object signed out, but `setItem`
   * has stored the text "undefined", which a new `API` object reads back as
   * a truthy token.
   */
  lemma MissingTokenIsStoredAsText(s: Storage, f: JsObject)
    ensures "access_token" !in f ==>
      var fields := TokenFields(JsonObject(f));
      && fields.Ok? && fields.value.0 == Undefined && !Truthy(fields.value.0)
      && StorageGet(StoreAuth(s, fields.value.0, fields.value.1), TokenKey) == Str("undefined")
      && Truthy(StorageGet(StoreAuth(s, fields.value.0, fields.value.1), TokenKey))
    ensures StorageGet(StoreAuth(s, Undefined, Undefined), TokenKey) == Str("undefined")
    ensures !Truthy(Undefined) && Truthy(StorageGet(StoreAuth(s, Undefined, Undefined), TokenKey))
  {
  }

  /** The gateway's JSON errors reach the caller: a non-ok, non-401 reply with a non-empty `error` throws exactly that message. */
  lemma GatewayErrorsSurface(status: int, statusText: string, message: string)
    requires !IsOkStatus(status) && status != 401 && message != ""
    ensures Classify(Reply(status, statusText, JsonObject(map["error" := Str(message)]))) == Thrown(Message(message))
  {
  }

  /** Without an `error` member the caller gets the status text, and a 401 always reads "Authentication required", whatever the body. */
  lemma FallbackMessages(status: int, statusText: string, body: Json)
    requires !IsOkStatus(status)
    ensures status == 401 ==> Classify(Reply(status, statusText, body)) == Thrown(Message("Authentication required"))
    ensures status != 401 && (body.JsonScalar? || (body.JsonObject? && !Truthy(Prop(body.fields, "error"))))
      ==> Classify(Reply(status, statusText, body)) == Thrown(Message("API request failed: " + statusText))
    ensures status != 401 && body.NotJson? ==> Classify(Reply(status, statusText, body)) == Thrown(EngineMessage)
  {
  }

  /**
   * The search endpoint carries the term as the value of its one query
   * parameter: the encoded term has no delimiter that could end the value or
   * start another parameter, and decodes back to the term.
   */
  lemma SearchEndpointCarriesTerm(term: string)
    ensures var e := UriComponent.EncodeUriComponent(term);
      && SearchEndpoint(term) == "/api/accounts/search" + "?" + "term=" + e
      && '&' !in e && '#' !in e && '=' !in e && '+' !in e
      && UriComponent.DecodeUriComponent(e) == Some(term)
  {
    UriComponent.EncodedIsQuerySafe(term);
    UriComponent.DecodeEncodeUriComponent(term);
  }

  /** The entries endpoint carries the price-book id the same way. */
  lemma PriceBookEntriesEndpointCarriesId(priceBookId: string)
    ensures var e := UriComponent.EncodeUriComponent(priceBookId);
      && PriceBookEntriesEndpoint(priceBookId) == "/api/pricebookentries" + "?" + "pricebookId=" + e
      && '&' !in e && '#' !in e && '=' !in e && '+' !in e
      && UriComponent.DecodeUriComponent(e) == Some(priceBookId)
  {
    UriComponent.EncodedIsQuerySafe(priceBookId);
    UriComponent.DecodeEncodeUriComponent(priceBookId);
  }
}
