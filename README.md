# A model of the Salesforce OAuth gateway and its browser client

The system is a Cloudflare Worker, the gateway, plus a small browser client. The gateway:

- builds the Salesforce login URL with a PKCE challenge (RFC 7636, S256 method);
- exchanges an authorization code and verifier for tokens;
- relays three read-only queries to the Salesforce REST API (API version v58.0): an account search in SOSL, the price books, and a price book's entries in SOQL. The caller must present a bearer token and an instance URL.

The client keeps the token and instance URL in its fields and in `localStorage`. It attaches them to each call and forgets them when the gateway answers 401.

How the model is built:

- **The gateway is pure.** `Worker.HandleRequest(req, env, platform)` computes the response from the request, the environment bindings and a `Platform`. The platform holds the foreign services: random bytes and SHA-256 as functions, the string `randomUUID` returned, and the upstream `fetch` as a function.
- **Thrown errors are values.** The body of the handler's `try` block is `Worker.Route`. An error thrown inside it is an `Outcome.Thrown` value, which `Worker.Catch` turns into a 500.
- **PKCE uses a loop.** `generateRandomString` fills a byte array and maps it through the charset. It is an imperative method with a loop, proved against the function `Pkce.RandomString`.
- **The client is a class.** `ClientApi.Api` has the token, instance URL and storage as fields. Its methods take the browser's `fetch` as a parameter, and each is proved against pure functions: `RequestCall`, `Classify`, `StoreAuth`, `ClearedStorage`, `CallbackOutcome`.
- **JavaScript values are modelled explicitly**: truthiness, `String(v)` coercion, `undefined` for missing properties, `split(' ')`, `startsWith`, `||`.

The encodings the code relies on are modelled and their round trips proved:

- **UTF-8** (RFC 3629): `TextEncoder`, and the bytes `encodeURIComponent` escapes.
- **`btoa`**: standard base64 (section 4 of RFC 4648).
- **base64url**: the translation to section 5 of RFC 4648 without padding.
- **`encodeURIComponent`/`decodeURIComponent`**: section 19.2.6.5 of ECMA-262.

Behaviours of the code a reader might not expect:

- CORS allows any origin (`*`) on every response.
- The token response is relayed without validation.
- A callback with no code or no verifier gets a 500, not a 400.
- The `state` parameter is generated but never checked.
- `/auth/url` answers every method except OPTIONS.

## Model

| member | source | states |
|---|---|---|
| JsValues.Split | worker/src/index.js:233 | `split(' ')` yields at least one part, none containing the separator, at least two when the separator occurs, and joining the parts gives the string back |
| JsValues.TakeUntil | worker/src/index.js:233 | the longest separator-free prefix: a prefix, without the separator, followed by the separator or the end |
| JsValues.SplitFirst | worker/src/index.js:233 | the first part of a split is the text before the first separator |
| JsValues.SplitSecond | worker/src/index.js:233 | after a prefix whose only separator is its last character, the second part is the text up to the next separator |
| Utf8.Encode | worker/src/index.js:27 | `TextEncoder.encode` gives between one and four bytes per character; `Utf8.DecodeEncode` proves it injective |
| Utf8.EncodeChar | worker/src/index.js:27 | a character encodes to one to four bytes, one byte exactly for ASCII (its code), otherwise a lead byte of at least 0xC0 and continuation bytes in 0x80..0xBF |
| Utf8.EncodeAscii | worker/src/index.js:26-27 | an ASCII string (such as the verifier) encodes to one byte per character, equal to its code |
| Utf8.DecodeFirstEncodeChar | worker/src/index.js:27 | strict decoding reads back the first encoded character and its byte count, whatever follows |
| Utf8.DecodeEncode | worker/src/index.js:26-27 | strict UTF-8 decoding of the encoding gives the string back, so the encoding is injective |
| Base64Url.UrlChar | worker/src/index.js:10-11 | no URL-alphabet character is `=`, `+` or `/` |
| Base64Url.UrlValue | worker/src/index.js:10-11 | a character's base64url value, when it has one, is in 0..63 and maps back to that character |
| Base64Url.ReplaceAll | worker/src/index.js:10-11 | a global single-character replacement keeps the length and leaves no occurrence of the replaced character |
| Base64Url.Btoa | worker/src/index.js:9 | `btoa` gives four characters per started group of three bytes; `Base64Url.TranslatedBtoa` relates it to base64url |
| Base64Url.StripTrailingPadding | worker/src/index.js:12 | removing the trailing `=` run gives a prefix that does not end in `=`, and everything removed is `=` |
| Base64Url.Base64UrlEncode | worker/src/index.js:8-13 | the encoded challenge has no `+`, no `/` and no trailing `=` |
| Base64Url.UnpaddedBase64Url | worker/src/index.js:8-13 | every character of the unpadded base64url text is in the URL alphabet |
| Base64Url.UnpaddedLength | worker/src/index.js:8-13 | the unpadded base64url text of n bytes has (4n+2)/3 characters |
| Base64Url.TranslatedQuad | worker/src/index.js:9-11 | translating the standard characters of a three-byte group gives its URL-safe group |
| Base64Url.TranslatedBtoa | worker/src/index.js:9-11 | `btoa` followed by the two replacements is the unpadded base64url text plus `btoa`'s padding |
| Base64Url.StripPadding | worker/src/index.js:12 | stripping the trailing `=` run removes exactly the padding |
| Base64Url.Base64UrlEncodeIsRfc4648Section5 | worker/src/index.js:8-13 | `base64URLEncode` equals base64url without padding (sections 5 and 3.2 of RFC 4648), of length (4n+2)/3 |
| Base64Url.DecodeQuad | worker/src/index.js:9 | a three-byte group's four characters decode back to the three bytes |
| Base64Url.DecodeUnpadded | worker/src/index.js:8-13 | decoding unpadded base64url gives the bytes back |
| Base64Url.DecodeBase64UrlEncode | worker/src/index.js:8-13 | decoding `base64URLEncode(b)` gives `b` back, so the challenge loses nothing of the digest |
| Pkce.CharsetLayout | worker/src/index.js:17 | the charset is the 26 upper-case letters, the 26 lower-case letters, the 10 digits, then `-._~` |
| Pkce.CharsetIsUnreserved | worker/src/index.js:17 | the charset has 66 distinct ASCII characters, exactly the unreserved characters of section 2.3 of RFC 3986 |
| Pkce.RandomStringIsUnreserved | worker/src/index.js:16-21 | a random string has the requested length and only unreserved ASCII characters |
| Pkce.GenerateRandomString | worker/src/index.js:16-21 | the array-filling loop returns a string of the requested length whose character i is `charset[byte i % 66]` |
| Pkce.GeneratePkce | worker/src/index.js:24-31 | the verifier has 128 unreserved characters; `Pkce.PkcePairWellFormed` and `Pkce.ChallengeDecodesToDigest` state the challenge |
| Pkce.PkcePairWellFormed | worker/src/index.js:24-31 | the verifier has 128 unreserved characters (within RFC 7636's 43..128) whose UTF-8 bytes are their codes; the challenge is the unpadded base64url SHA-256 of those bytes, with no `+`, `/` or `=`, and 43 characters for a 32-byte digest |
| Pkce.ChallengeDecodesToDigest | worker/src/index.js:28-29 | the challenge decodes back to the SHA-256 digest of the verifier |
| UriComponent.HexValue | worker/src/index.js:249 | a hexadecimal digit's value is in 0..15 |
| UriComponent.PercentEncode | worker/src/index.js:249 | percent-encoding gives three characters per byte |
| UriComponent.PercentEncodeTriples | worker/src/index.js:249 | byte i becomes the triple at 3i: `%`, then the upper-case hex digits of its high and low nibbles |
| UriComponent.EncodeCharText | worker/src/index.js:249 | each character becomes a non-empty text of characters `encodeURIComponent` can emit |
| UriComponent.EncodeUriComponent | worker/src/index.js:249 | `encodeURIComponent`, character by character; `UriComponent.EncodedChars`, `UriComponent.EncodedIsQuerySafe` and `UriComponent.DecodeEncodeUriComponent` state its properties |
| UriComponent.EncodedChars | worker/src/index.js:249 | the encoding consists only of unescaped characters, `%` and upper-case hex digits, and is never shorter than the input |
| UriComponent.EncodedIsQuerySafe | worker/src/index.js:249 | the encoding has no `&`, `=`, `#`, `?`, `+`, space, `/` or brace, so it stays one query value |
| UriComponent.PercentDecodeEncode | worker/src/index.js:249 | percent-decoding the encoding gives the string's UTF-8 bytes |
| UriComponent.DecodeEncodeUriComponent | worker/src/index.js:249 | `decodeURIComponent(encodeURIComponent(s)) == s` for every string |
| Http.NewResponse | worker/src/index.js:227-230 | the `Response` constructor keeps the status, body and given headers, and adds a content type for a non-null body that has none |
| Worker.HandleOptions | worker/src/index.js:73-77 | preflight is an empty 200 carrying exactly the CORS headers |
| Worker.GetOAuthUrl | worker/src/index.js:34-61 | the authorization URL is produced exactly when both the client id and the redirect URI are truthy |
| Worker.GetAccessToken | worker/src/index.js:80-104 | the token exchange succeeds exactly on a 2xx reply with a JSON body, and yields that body; a network failure throws the engine's error. `WorkerProperties.TokenCallIsCodeGrant` states the request and `WorkerProperties.CallbackExchangesCode` the error messages |
| Worker.SfRequest | worker/src/index.js:107-127 | a data request succeeds exactly on a 2xx reply with a JSON body, and yields that body; a non-2xx reply throws `Salesforce API request failed: <status text>`. `WorkerProperties.DataUrl` states the request |
| Worker.Route | worker/src/index.js:136-308 | the body of the outer `try`; `WorkerProperties.Dispatch` states which route answers which request |
| Worker.HandleRequest | worker/src/index.js:130-321 | `handleRequest`; `WorkerProperties.Dispatch`, `WorkerProperties.CorsOnEveryResponse`, `WorkerProperties.StatusCodes` and the `…Iff` lemmas state its responses |
| Worker.Fetch | worker/src/index.js:324-331 | the exported `fetch` answers exactly as `handleRequest` |
| WorkerProperties.HeaderSets | worker/src/index.js:64-70 | CORS, JSON and text headers all carry the three CORS headers, origin `*`, and the right content type |
| WorkerProperties.ResponseShapes | worker/src/index.js:150-158 | a JSON response keeps the handler's headers exactly; a text response gains `text/plain;charset=UTF-8` |
| WorkerProperties.AuthUrlRouteFacts | worker/src/index.js:141-174 | `/auth/url` is a JSON 200 with the URL when both bindings are set and a JSON 500 with the error otherwise |
| WorkerProperties.CallbackRouteFacts | worker/src/index.js:177-222 | the callback is a 405 for non-POST; a faulty body throws its fault; otherwise `TokenResponse` of the token-endpoint reply. 400 exactly when the exchange is rejected |
| WorkerProperties.RelayedRequest | worker/src/index.js:107-127 | a relayed `sfRequest` answers as `DataResponse`: a 200 with the JSON, or a 500 with `Salesforce API request failed: <status text>` or the engine's error |
| WorkerProperties.ApiRouteGuards | worker/src/index.js:224-240 | without a `Bearer ` header a protected route is a 401 "Unauthorized", without an instance URL a 400 "Instance URL required", and off the data paths a 404 "Not Found", all as text |
| WorkerProperties.ApiRouteData | worker/src/index.js:242-302 | a data route that does not throw answers with a JSON 200 |
| WorkerProperties.ApiRouteFacts | worker/src/index.js:224-308 | protected routes answer 401 without a `Bearer ` header, 400 without an instance URL, 404 off the three data paths, and otherwise a relayed JSON 200 or a throw |
| WorkerProperties.Dispatch | worker/src/index.js:130-321 | preflight first, then `/auth/url`, then `/auth/callback`, then the protected routes inside the outer `try` |
| WorkerProperties.PreflightShortCircuits | worker/src/index.js:132-134 | OPTIONS gets the empty CORS 200 whatever the path, headers, environment or platform, from both handlers |
| WorkerProperties.CorsOnEveryResponse | worker/src/index.js:130-321 | every response, errors included, carries all CORS headers with origin `*`; text bodies are labelled plain text, JSON bodies JSON; a response has no body if and only if it answers preflight |
| WorkerProperties.StatusCodes | worker/src/index.js:130-321 | the only statuses are 200, 400, 401, 404, 405 and 500 |
| WorkerProperties.UnauthorizedIff | worker/src/index.js:224-231 | 401 if and only if a protected request lacks a truthy `Bearer ` authorization header; the body is "Unauthorized" |
| WorkerProperties.MethodNotAllowedIff | worker/src/index.js:177-189 | 405 if and only if the callback is requested with a method other than POST or OPTIONS |
| WorkerProperties.NotFoundIff | worker/src/index.js:304-308 | 404 if and only if an admitted request is for a path other than the three data routes |
| WorkerProperties.BadRequestIff | worker/src/index.js:210-240 | 400 if and only if a protected request with a bearer token lacks the instance URL, or the token endpoint rejects a faultless callback |
| WorkerProperties.CallbackValidatesBeforeExchange | worker/src/index.js:191-200 | a callback body that is not an object, or lacks a truthy code or verifier, is a 500 with that fault on every platform, so no token request is made |
| WorkerProperties.AuthorizeEndpoint | worker/src/index.js:3-4 | the authorization endpoint is `https://login.salesforce.com/services/oauth2/authorize` |
| WorkerProperties.TokenEndpoint | worker/src/index.js:3-5 | the token endpoint is `https://login.salesforce.com/services/oauth2/token` |
| WorkerProperties.TokenFormValues | worker/src/index.js:81-88 | the token form carries the authorization-code grant type, the client's credentials as `String` renders them, the code and the verifier |
| WorkerProperties.TokenCallIsCodeGrant | worker/src/index.js:80-96 | the token request is a form POST to the Salesforce token endpoint with exactly six fields: the grant type, the client id and secret, the redirect URI, the code and the verifier |
| WorkerProperties.CallbackExchangesCode | worker/src/index.js:202-221 | a faultless callback sends the body's code and verifier, and answers as `TokenResponse` says: 200 relaying the reply, or 400 with `error_description` or the fallback message |
| WorkerProperties.DataUrl | worker/src/index.js:120 | the data URL is the instance URL, `/services/data/v58.0`, and the route's path and query |
| WorkerProperties.SearchRelaysSosl | worker/src/index.js:243-260 | account search GETs `/search?q=` with the encoded SOSL for the term (empty when missing). The bearer token goes along, the query decodes back to the SOSL, and the reply is mapped by `DataResponse` |
| WorkerProperties.PricebooksRelaysSoql | worker/src/index.js:263-278 | the price-book list sends `SELECT Id, Name FROM Pricebook2` and maps the reply by `DataResponse` |
| WorkerProperties.PricebookEntriesRequireId | worker/src/index.js:282-285 | without a truthy `pricebookId` the entries route is a 500 "Price book ID is required" on every platform |
| WorkerProperties.PricebookEntriesRelaySoql | worker/src/index.js:281-302 | with an id, the entries SOQL for that id is sent and its reply mapped by `DataResponse` |
| WorkerProperties.BearerTokenIsSecondWord | worker/src/index.js:233 | the forwarded token is the text after `Bearer ` up to the next space |
| WorkerProperties.BearerTokenRoundTrip | worker/src/index.js:233 | a token without spaces is forwarded unchanged |
| WorkerProperties.AuthUrlEndpoint | worker/src/index.js:141-174 | `/auth/url` is 200 exactly when both bindings are set. Otherwise it is a 500 naming the client id first, then the redirect URI. The 200 body is `getOAuthUrl`'s URL and verifier |
| WorkerProperties.AuthorizeParamValues | worker/src/index.js:45-53 | the authorization query holds the seven parameters with their values and no `code_verifier` |
| WorkerProperties.AuthorizationRequestParams | worker/src/index.js:34-55 | the URL goes to the Salesforce authorize endpoint with `response_type=code`, the client id, the redirect URI, scope `api refresh_token`, the UUID as state, and S256. There is no `code_verifier` parameter |
| WorkerProperties.AuthorizationRequestIsPkce | worker/src/index.js:43-59 | the URL's `code_challenge` is the S256 challenge of the verifier returned beside it, which has 128 unreserved characters |
| ClientApi.StoreAuth | public/js/api.js:32-37 | `setAuth` stores `String` of each credential under its key and keeps every other item |
| ClientApi.ClearedStorage | public/js/api.js:39-44 | `clearAuth` removes both credential items and keeps every other item |
| ClientApi.Classify | public/js/api.js:19-29 | a reply resolves exactly when it is ok and its body is JSON, to that body; a 401 throws "Authentication required". `ClientApi.FallbackMessages` and `ClientApi.GatewayErrorsSurface` state the other messages |
| ClientApi.AttachCredentials | public/js/api.js:9-15 | a truthy token adds `Authorization: Bearer <token>` and `SF-Instance-URL`, overriding the caller's and keeping its other headers; otherwise the headers are the caller's |
| ClientApi.CallbackPayload | public/js/api.js:61 | the posted JSON has a member exactly for each value that is not `undefined`, with that value |
| ClientApi.Api.constructor | public/js/api.js:2-6 | a new client reads its credentials back from storage (`null` when absent), and is signed in exactly when the stored token is truthy |
| ClientApi.Api.IsAuthenticated | public/js/api.js:46-48 | signed in exactly when the token field is a non-empty string. The constructor, `SetAuth`, `ClearAuth`, `Request` and `HandleCallback` state what it is after each call |
| ClientApi.Api.SetAuth | public/js/api.js:32-37 | sets both fields and stores both credentials as text; afterwards the client is signed in exactly when the given token is truthy |
| ClientApi.Api.ClearAuth | public/js/api.js:39-44 | sets both fields to `null` and removes both stored items, so the client is signed out |
| ClientApi.Api.Request | public/js/api.js:8-30 | one call to `workerUrl + endpoint` with credentials attached; the result is `Classify` of the reply; a 401 signs out, any other reply leaves the state, and whether the client is signed in, unchanged |
| ClientApi.Api.GetAuthUrl | public/js/api.js:50-53 | requests `/auth/url` with no options and returns the classified reply |
| ClientApi.Api.HandleCallback | public/js/api.js:55-66 | posts the code and verifier as JSON. Only when the exchange succeeds does it store the reply's `access_token` and `instance_url`, and the client is then signed in exactly when that token is truthy; a failed call signs out on 401 and otherwise changes nothing |
| ClientApi.Api.SearchAccounts | public/js/api.js:68-70 | requests the search endpoint for the encoded term |
| ClientApi.Api.GetPriceBooks | public/js/api.js:72-74 | requests `/api/pricebooks` |
| ClientApi.Api.GetPriceBookEntries | public/js/api.js:76-78 | requests the entries endpoint for the encoded price-book id |
| ClientApi.ClearIsIdempotent | public/js/api.js:39-44 | clearing twice is clearing once |
| ClientApi.SessionSurvivesReload | public/js/api.js:2-6 | credentials stored by `setAuth` are read back by a new client, and neither the token nor the instance URL after `clearAuth` |
| ClientApi.MissingTokenIsStoredAsText | public/js/api.js:64 | a token reply object without `access_token` gives an `undefined` token field, so `HandleCallback` leaves the client signed out, but it stores the text "undefined", which reads back as a truthy token |
| ClientApi.GatewayErrorsSurface | public/js/api.js:25-26 | a non-ok, non-401 reply with a non-empty `error` throws exactly that message |
| ClientApi.FallbackMessages | public/js/api.js:19-26 | a 401 always throws "Authentication required"; without an `error` the message is `API request failed: <status text>`; an unreadable body throws the engine's error |
| ClientApi.SearchEndpointCarriesTerm | public/js/api.js:68-70 | the search endpoint is the route plus `?term=` and the encoded term, which has no delimiter and decodes back to the term |
| ClientApi.PriceBookEntriesEndpointCarriesId | public/js/api.js:76-78 | the entries endpoint carries the price-book id the same way |
| EndToEnd.ClientEndpointsAreRoutes | public/js/api.js:50-78 | the client's endpoints are the gateway's route paths |
| EndToEnd.ClientCredentialsAdmitted | public/js/api.js:9-15 | the headers the client attaches for a non-empty, space-free token and an instance URL pass the gateway's checks, and the gateway forwards that very token and instance URL |
| EndToEnd.SignedOutClientIsTurnedAway | worker/src/index.js:225-231 | a client without a token reaches a protected route without `Authorization` and gets the text 401, which the client receives as an unparseable 401 reply, the one on which `Request` signs it out |
| EndToEnd.CallbackPayloadAccepted | public/js/api.js:55-62 | the callback body the client posts with a code and a verifier passes the gateway's checks, with that code and verifier |
| EndToEnd.CallbackWithoutVerifierRefused | worker/src/index.js:198-200 | a callback posted without a verifier is refused with the 500 "No code verifier provided" before any token request |

## Left out

- SHA-256 and the random bytes are inputs: functions held by `Platform`. The result of `randomUUID()` is a string held there too. Their cryptographic quality is not modelled, and neither is the bias of `byte % 66`.
- `fetch` to Salesforce and to the gateway is a function parameter. `await` ordering and concurrency are not modelled, since requests are independent.
- JSON text is not modelled. A parsed body is one of four kinds: not JSON, `null`, a scalar, or an object whose members are strings, `null` or `undefined`. `response.json()` (`JsValues.ParseJson`) throws exactly on the first kind and otherwise yields the body. An object member that is a number, a boolean, an array or an object is not represented, so the model covers only bodies whose members are strings, `null` or absent.
- The engine's own wording for `TypeError`, `SyntaxError` and network errors is one opaque `EngineMessage`.
- `URLSearchParams` serialization is not modelled. The authorization URL and the token form are kept as an endpoint plus an ordered list of name/value pairs.
- Request URL parsing is not modelled: a request carries its path and already-decoded query.
- Header names are compared exactly as the code writes them. The case-insensitivity of `Headers` is not modelled.
- Request header values and the request method are taken as given, without the normalization `Request` and `Headers` apply (trimming of header values, upper-casing of standard methods). For example, an `Authorization` value of exactly `Bearer ` is admitted with an empty token in the model; the runtime trims it to `Bearer`, which fails the `Bearer ` test.
- `console.log` calls and the unused `ctx` argument are left out, because they do not affect responses.
- Dafny characters are Unicode scalar values. A JavaScript string with a lone surrogate, which makes `encodeURIComponent` throw a `URIError`, is not modelled.
- `request` assigns `options.headers` on the caller's object. That mutation is not modelled; only the headers sent are.
- public/js/app.js and public/js/auth.js are not part of this model. Two of their traits show only through the lemmas above:
  - auth.js calls `handleCallback(code)` without a verifier, which `EndToEnd.CallbackWithoutVerifierRefused` shows the gateway refuses;
  - auth.js assigns the object returned by `getAuthUrl` to `location.href`.
- The `state` parameter is generated, and nothing in the code checks it when the callback arrives, so the model has nothing to state about it.
