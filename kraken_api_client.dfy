/**
 * `com.kraken.api.KrakenClient`: the REST client for the Kraken backend.
 *
 * The HTTP transport (`HttpClient.send`) and Jackson's JSON mapping are
 * outside the model: they are function parameters. `send` maps a built
 * request to a response, an `IOException` or an `InterruptedException`;
 * `encode` is `writeValueAsString` (`None` = `JsonProcessingException`);
 * decoders are `readValue`, which yields a value, Java `null` for a JSON
 * `null` body, or throws.
 */
module KrakenApi {
  import opened Wrappers
  import opened JavaStrings

  const BASE_URL: string := "https://rog742w0fa.execute-api.us-east-1.amazonaws.com/prod"
  const VALIDATE_LICENSE_PATH: string := "/api/v1/plugin/validate-license"
  const CREATE_PRESIGNED_URL_PATH: string := "/api/v1/plugin/create-presigned-url"

  // ---------------------------------------------------------------- records

  datatype CognitoCredentials = CognitoCredentials(
    idToken: Option<string>,
    refreshToken: Option<string>,
    accessToken: Option<string>,
    expirationTimeSeconds: int)

  datatype CognitoUser = CognitoUser(
    cognitoId: Option<string>,
    discordId: Option<string>,
    discordUsername: Option<string>,
    email: Option<string>,
    accountEnabled: bool,
    credentials: Option<CognitoCredentials>)

  datatype ValidateLicenseRequest = ValidateLicenseRequest(
    credentials: Option<CognitoCredentials>,
    licenseKey: Option<string>,
    hardwareId: string)

  // ---------------------------------------------------------------- HTTP

  datatype Header = Header(name: string, value: string)

  datatype HttpRequest = HttpRequest(httpMethod: string, uri: string, headers: seq<Header>, body: Option<string>)

  /** A received response; `BodyHandlers.ofString` never yields a null body. */
  datatype HttpResponse = HttpResponse(statusCode: int, body: string)

  /** What `HttpClient.send` does with a request. */
  datatype SendOutcome = Received(response: HttpResponse) | IOFailure | Interrupted

  /** The outcome of the typed overload: a value, `null`, or a thrown `RuntimeException`. */
  datatype Typed<T> = Value(value: T) | Null | Raised(message: string)

  /** What `readValue` gives: a value, `null` for a JSON `null` body, or a thrown exception. */
  datatype Decoding<T> = Decoded(value: T) | DecodedNull | DecodeFailed

  /** `readValue` into `Map<String, String>`: JSON null values are `None`, and the exception is an `IOException`. */
  type MapDecode = Decoding<map<string, Option<string>>>

  /** A call that returns a boolean or lets an exception escape. */
  datatype Verdict = Returned(valid: bool) | Threw

  /** The request `sendRequestGeneric` builds: the base URL plus path, a JSON content type, and a bearer token only when one is given. */
  function RequestFor(httpMethod: string, path: string, jsonBody: Option<string>, accessToken: Option<string>): (r: HttpRequest)
    ensures r.uri == BASE_URL + path && r.httpMethod == httpMethod && r.body == jsonBody
    ensures |r.headers| == if accessToken.Some? then 2 else 1
    ensures r.headers[0] == Header("Content-Type", "application/json")
    ensures accessToken.Some? ==> r.headers[1] == Header("Authorization", "Bearer " + accessToken.value)
  {
    var base := [Header("Content-Type", "application/json")];
    HttpRequest(httpMethod, BASE_URL + path,
      if accessToken.Some? then base + [Header("Authorization", "Bearer " + accessToken.value)] else base,
      jsonBody)
  }

  /** `statusCode < 200 || statusCode > 399`: the codes that are logged as unexpected. */
  predicate UnexpectedStatus(code: int) {
    code < 200 || code > 399
  }

  /**
   * The `String`-body overload: builds the request step by step, sends it,
   * and returns whatever arrives. An unexpected status is only logged, the
   * response is still returned; transport failures propagate.
   */
  method SendJson(httpMethod: string, path: string, jsonBody: Option<string>, accessToken: Option<string>,
                  send: HttpRequest -> SendOutcome)
    returns (outcome: SendOutcome, loggedUnexpected: bool)
    ensures outcome == send(RequestFor(httpMethod, path, jsonBody, accessToken))
    ensures loggedUnexpected <==> outcome.Received? && UnexpectedStatus(outcome.response.statusCode)
  {
    var builder := HttpRequest(httpMethod, BASE_URL + path, [Header("Content-Type", "application/json")], jsonBody);
    if accessToken.Some? {
      builder := builder.(headers := builder.headers + [Header("Authorization", "Bearer " + accessToken.value)]);
    }
    outcome := send(builder);
    loggedUnexpected := outcome.Received? && UnexpectedStatus(outcome.response.statusCode);
  }

  /** The request the `Object`-body overload sends, when serialisation succeeds. */
  function ObjectRequest<B>(httpMethod: string, path: string, body: Option<B>, accessToken: Option<string>,
                            encode: B -> Option<string>): (r: Option<HttpRequest>)
    ensures body.None? ==> r == Some(RequestFor(httpMethod, path, None, accessToken))
    ensures body.Some? ==> (r.Some? <==> encode(body.value).Some?)
    ensures body.Some? && r.Some? ==> r.value.body == encode(body.value)
  {
    if body.None? then Some(RequestFor(httpMethod, path, None, accessToken))
    else match encode(body.value)
      case None => None
      case Some(json) => Some(RequestFor(httpMethod, path, Some(json), accessToken))
  }

  /**
   * The `Object`-body overload: a null body sends no body, otherwise the JSON
   * form of the object; serialisation, I/O and interrupt failures are logged
   * and turned into `null`.
   */
  method SendObject<B>(httpMethod: string, path: string, body: Option<B>, accessToken: Option<string>,
                       encode: B -> Option<string>, send: HttpRequest -> SendOutcome)
    returns (response: Option<HttpResponse>)
    ensures var req := ObjectRequest(httpMethod, path, body, accessToken, encode);
      response.Some? <==> req.Some? && send(req.value).Received?
    ensures response.Some? ==> response.value == send(ObjectRequest(httpMethod, path, body, accessToken, encode).value).response
  {
    var json: Option<string> := None;
    if body.Some? {
      json := encode(body.value);
      if json.None? {
        // JsonProcessingException: "Failed to write body of request to json"
        return None;
      }
    }
    var outcome, _ := SendJson(httpMethod, path, json, accessToken, send);
    if outcome.Received? {
      response := Some(outcome.response);
    } else {
      response := None;
    }
  }

  /** Message of the `RuntimeException` raised when a typed response cannot be decoded. */
  function DeserializeError(statusCode: int): string {
    "Error deserializing response to POJO. Status code = " + IntToString(statusCode)
  }

  /**
   * The typed overload: `null` when the `Object` overload gave `null` or the
   * body is JSON `null`; the decoded value otherwise, or a `RuntimeException`
   * carrying the status code when decoding fails.
   */
  method SendTyped<B, T>(httpMethod: string, path: string, body: Option<B>, accessToken: Option<string>,
                         encode: B -> Option<string>, send: HttpRequest -> SendOutcome, decode: string -> Decoding<T>)
    returns (r: Typed<T>)
    ensures var req := ObjectRequest(httpMethod, path, body, accessToken, encode);
      r.Null? <==> !(req.Some? && send(req.value).Received?) ||
                   decode(send(req.value).response.body).DecodedNull?
    ensures var req := ObjectRequest(httpMethod, path, body, accessToken, encode);
      r.Value? <==> req.Some? && send(req.value).Received? && decode(send(req.value).response.body).Decoded?
    ensures var req := ObjectRequest(httpMethod, path, body, accessToken, encode);
      r.Raised? <==> req.Some? && send(req.value).Received? && decode(send(req.value).response.body).DecodeFailed?
    ensures var req := ObjectRequest(httpMethod, path, body, accessToken, encode);
      req.Some? && send(req.value).Received? ==>
        var res := send(req.value).response;
        && (r.Value? ==> r.value == decode(res.body).value)
        && (r.Raised? ==> r.message == DeserializeError(res.statusCode))
  {
    var response := SendObject(httpMethod, path, body, accessToken, encode, send);
    if response.None? {
      return Null;
    }
    match decode(response.value.body) {
      case Decoded(v) => r := Value(v);
      case DecodedNull => r := Null;
      case DecodeFailed => r := Raised(DeserializeError(response.value.statusCode));
    }
  }

  // ---------------------------------------------------------------- license check

  /** The decoded response holds no non-null "error" value. */
  predicate NoError(entries: map<string, Option<string>>) {
    "error" !in entries || entries["error"].None?
  }

  /**
   * What `validateLicense` does, step by step: the id token is read from the
   * request's credentials (a null credentials object throws), the request is
   * posted, and the body is decoded. A null response is dereferenced and
   * throws `NullPointerException`, which the `IOException` handler does not
   * catch; so does a JSON `null` body. A decode failure is an `IOException`
   * and gives `false`.
   */
  function LicenseVerdict(request: ValidateLicenseRequest, encode: ValidateLicenseRequest -> Option<string>,
                          send: HttpRequest -> SendOutcome, decodeMap: string -> MapDecode): Verdict
  {
    if request.credentials.None? then Threw
    else
      var req := ObjectRequest("POST", VALIDATE_LICENSE_PATH, Some(request), request.credentials.value.idToken, encode);
      if req.None? || !send(req.value).Received? then Threw
      else match decodeMap(send(req.value).response.body)
        case DecodeFailed => Returned(false)
        case DecodedNull => Threw
        case Decoded(m) => Returned(NoError(m))
  }

  method ValidateLicense(request: ValidateLicenseRequest, encode: ValidateLicenseRequest -> Option<string>,
                         send: HttpRequest -> SendOutcome, decodeMap: string -> MapDecode)
    returns (verdict: Verdict)
    ensures verdict == LicenseVerdict(request, encode, send, decodeMap)
  {
    if request.credentials.None? {
      return Threw;
    }
    var res := SendObject("POST", VALIDATE_LICENSE_PATH, Some(request), request.credentials.value.idToken, encode, send);
    if res.None? {
      return Threw;
    }
    var decoded := decodeMap(res.value.body);
    match decoded {
      case DecodeFailed =>
        verdict := Returned(false);
      case DecodedNull =>
        verdict := Threw;
      case Decoded(m) =>
        verdict := Returned("error" !in m || m["error"].None?);
    }
  }

  /**
   * The verdict is `true` exactly when a response arrived and decoded to a map
   * without a non-null "error" value; a status code outside 200-399 does not
   * matter by itself.
   */
  lemma LicenseValidIff(request: ValidateLicenseRequest, encode: ValidateLicenseRequest -> Option<string>,
                        send: HttpRequest -> SendOutcome, decodeMap: string -> MapDecode)
    ensures LicenseVerdict(request, encode, send, decodeMap) == Returned(true) <==>
      && request.credentials.Some?
      && encode(request).Some?
      && var req := RequestFor("POST", VALIDATE_LICENSE_PATH, encode(request), request.credentials.value.idToken);
         && send(req).Received?
         && decodeMap(send(req).response.body).Decoded?
         && NoError(decodeMap(send(req).response.body).value)
  {
  }

  /** Transport failures never yield a licence: they escape as an exception instead of `false`. */
  lemma TransportFailureEscapes(request: ValidateLicenseRequest, encode: ValidateLicenseRequest -> Option<string>,
                                send: HttpRequest -> SendOutcome, decodeMap: string -> MapDecode)
    requires request.credentials.Some? && encode(request).Some?
    requires !send(RequestFor("POST", VALIDATE_LICENSE_PATH, encode(request), request.credentials.value.idToken)).Received?
    ensures LicenseVerdict(request, encode, send, decodeMap) == Threw
  {
  }

  /** An explicit error value, or an undecodable body, is `false`. */
  lemma ErrorFieldRejects(request: ValidateLicenseRequest, encode: ValidateLicenseRequest -> Option<string>,
                          send: HttpRequest -> SendOutcome, decodeMap: string -> MapDecode)
    requires request.credentials.Some? && encode(request).Some?
    requires var req := RequestFor("POST", VALIDATE_LICENSE_PATH, encode(request), request.credentials.value.idToken);
      send(req).Received? &&
      (decodeMap(send(req).response.body).DecodeFailed? ||
       (decodeMap(send(req).response.body).Decoded? && !NoError(decodeMap(send(req).response.body).value)))
    ensures LicenseVerdict(request, encode, send, decodeMap) == Returned(false)
  {
  }

  // ---------------------------------------------------------------- endpoints

  /** The other calls the client makes, by route. */
  datatype Endpoint =
    | CreatePresignedUrl
    | ValidateLicenseCall
    | CreateUser
    | Authenticate
    | RefreshSession
    | GetUser(discordId: string)
    | UpdateUserStatus(discordId: string, accountEnabled: bool)
    | PostDiscordOAuthCode

  /** HTTP httpMethod and path of each endpoint; `bearer` says whether the credentials' id token is sent. */
  datatype Route = Route(httpMethod: string, path: string, bearer: bool)

  function RouteOf(e: Endpoint): (r: Route)
    ensures StartsWith(r.path, "/api/v1/")
    ensures r.bearer <==> e.CreatePresignedUrl? || e.ValidateLicenseCall?
    ensures r.httpMethod == "GET" <==> e.GetUser?
  {
    match e
    case CreatePresignedUrl => Route("POST", CREATE_PRESIGNED_URL_PATH, true)
    case ValidateLicenseCall => Route("POST", VALIDATE_LICENSE_PATH, true)
    case CreateUser => Route("POST", "/api/v1/cognito/create-user", false)
    case Authenticate => Route("POST", "/api/v1/cognito/auth", false)
    case RefreshSession => Route("POST", "/api/v1/cognito/refresh-session", false)
    case GetUser(id) => Route("GET", "/api/v1/cognito/get-user?discordId=" + id, false)
    case UpdateUserStatus(_, _) => Route("PUT", "/api/v1/cognito/user-status", false)
    case PostDiscordOAuthCode => Route("POST", "/api/v1/discord/oauth", false)
  }

  /** The hand-written JSON body of `updateUserStatus`; the id is inserted without escaping. */
  function UserStatusBody(discordId: string, accountEnabled: bool): (body: string)
    ensures StartsWith(body, "{\"discordId\":\"" + discordId + "\", \"accountEnabled\":")
    ensures EndsWith(body, if accountEnabled then "true}" else "false}")
  {
    "{\"discordId\":\"" + discordId + "\", \"accountEnabled\":" + (if accountEnabled then "true" else "false") + "}"
  }
}
