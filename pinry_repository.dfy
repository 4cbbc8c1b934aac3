/**
 * PinryRepository: the two read calls to the Pinry server, from the stored
 * settings to the request sent, and from the reply to the result returned.
 * The network is a parameter: `reply` is how the call ended and `parse` what
 * Gson makes of a non-empty body.
 */
module Repository {
  import opened Optional
  import opened Text
  import opened Models
  import opened Http

  /** One page of pins, or an error message. */
  datatype PinFetchResult = PinFetchResult(
    success: bool,
    pins: seq<PinryPin>,
    hasMore: bool,
    totalCount: int,
    error: Option<string>)

  datatype ValidationResult = ValidationResult(isValid: bool, errorMessage: Option<string>)

  /** What Gson makes of a body: a parsed envelope, or a `JsonSyntaxException`. */
  datatype ParseOutcome = Parsed(response: PinryPinsResponse) | SyntaxError(message: Option<string>)

  /** A call's outcome: the request it sent, if it got that far, and its result. */
  datatype FetchOutcome = FetchOutcome(request: Option<Request>, result: PinFetchResult)

  datatype ValidationOutcome = ValidationOutcome(request: Option<Request>, result: ValidationResult)

  /** `PinFetchResult.error(message)`: a failed, empty page. */
  function ErrorResult(message: string): (r: PinFetchResult)
    ensures !r.success && r.pins == [] && !r.hasMore && r.totalCount == 0
    ensures r.error == Some(message)
  {
    PinFetchResult(false, [], false, 0, Some(message))
  }

  /** `trim().removeSuffix("/")`: surrounding whitespace and at most one trailing slash go. */
  function NormalizeBase(url: string): (r: string)
    ensures EndsWith(Trim(url), "/") ==> r + "/" == Trim(url)
    ensures !EndsWith(Trim(url), "/") ==> r == Trim(url)
  {
    RemoveSuffix(Trim(url), "/")
  }

  /** The `Authorization` header, when there is a token that is not blank. */
  function AuthHeaders(token: Option<string>): (hs: seq<Header>)
    ensures token.Some? && !IsBlank(token.value) ==> hs == [Header("Authorization", "Token " + token.value)]
    ensures token.None? || IsBlank(token.value) ==> hs == []
  {
    if token.Some? && !IsBlank(token.value) then [Header("Authorization", "Token " + token.value)] else []
  }

  /** The page request of `fetchPins`: newest first, with the stored token if it is not blank. */
  function PinsRequest(base: string, token: string, offset: int, limit: int): (r: Request)
    ensures r.verb == Get && r.url == base + "/api/v2/pins/"
    ensures r.query == [("limit", IntToString(limit)), ("offset", IntToString(offset)), ("ordering", "-id")]
    ensures r.headers != [] && r.headers[0] == Header("Accept", "application/json")
    ensures HasHeader(r, "Authorization") <==> !IsBlank(token)
    ensures !IsBlank(token) ==> r.headers == [Header("Accept", "application/json"), Header("Authorization", "Token " + token)]
  {
    var r := Request(Get, base + "/api/v2/pins/",
      [("limit", IntToString(limit)), ("offset", IntToString(offset)), ("ordering", "-id")],
      [Header("Accept", "application/json")] + AuthHeaders(Some(token)), NoBody);
    assert r.headers[0].name == "Accept";
    r
  }

  /** The probe request of `validatePinryServer`: one pin, with the token if one is given and not blank. */
  function ValidationRequest(base: string, token: Option<string>): (r: Request)
    ensures r.verb == Get && r.url == base + "/api/v2/pins/" && r.query == [("limit", "1")]
    ensures r.headers != [] && r.headers[0] == Header("Accept", "application/json")
    ensures HasHeader(r, "Authorization") <==> token.Some? && !IsBlank(token.value)
  {
    var r := Request(Get, base + "/api/v2/pins/", [("limit", "1")],
      [Header("Accept", "application/json")] + AuthHeaders(token), NoBody);
    assert r.headers[0].name == "Accept";
    r
  }

  /** Builds the page request the way `fetchPins` does, one `addHeader` at a time. */
  method BuildPinsRequest(base: string, token: string, offset: int, limit: int) returns (req: Request)
    ensures req == PinsRequest(base, token, offset, limit)
  {
    var builder := new RequestBuilder(Get, base + "/api/v2/pins/",
      [("limit", IntToString(limit)), ("offset", IntToString(offset)), ("ordering", "-id")], NoBody);
    builder.AddHeader("Accept", "application/json");
    if !IsBlank(token) {
      builder.AddHeader("Authorization", "Token " + token);
    }
    req := builder.Build();
  }

  /** Builds the probe request the way `validatePinryServer` does. */
  method BuildValidationRequest(base: string, token: Option<string>) returns (req: Request)
    ensures req == ValidationRequest(base, token)
  {
    var builder := new RequestBuilder(Get, base + "/api/v2/pins/", [("limit", "1")], NoBody);
    builder.AddHeader("Accept", "application/json");
    if token.Some? && !IsBlank(token.value) {
      builder.AddHeader("Authorization", "Token " + token.value);
    }
    req := builder.Build();
  }

  /** `fetchPins(offset, limit)` against the stored URL and token. */
  function FetchPins(storedUrl: string, storedToken: string, offset: int, limit: int, reply: Reply, parse: ParseOutcome): (r: FetchOutcome)
    ensures NormalizeBase(storedUrl) == [] ==>
      r == FetchOutcome(None, ErrorResult("Pinry Base URL is not configured"))
    ensures NormalizeBase(storedUrl) != [] ==>
      r.request == Some(PinsRequest(NormalizeBase(storedUrl), storedToken, offset, limit))
    ensures r.result.success <==>
      NormalizeBase(storedUrl) != [] && reply.Response? && IsSuccessful(reply.code)
      && reply.body.GetOr("") != [] && parse.Parsed?
    ensures !r.result.success ==> r.result.error.Some? && r.result == ErrorResult(r.result.error.value)
    ensures r.result.success ==>
      var page := parse.response;
      r.result == PinFetchResult(true, page.results.GetOr([]), page.next.Some?, page.count, None)
    ensures NormalizeBase(storedUrl) != [] && reply.IoFailure? ==>
      r.result == ErrorResult("Network error: " + Interp(reply.message))
    ensures NormalizeBase(storedUrl) != [] && reply.Response? && !IsSuccessful(reply.code) ==>
      r.result == ErrorResult("Server error (" + IntToString(reply.code) + "): " + TakeUnits(reply.body.GetOr(""), 200))
    ensures NormalizeBase(storedUrl) != [] && reply.Response? && IsSuccessful(reply.code) && reply.body.GetOr("") == [] ==>
      r.result == ErrorResult("Empty response from server")
    ensures NormalizeBase(storedUrl) != [] && reply.Response? && IsSuccessful(reply.code) && reply.body.GetOr("") != [] && parse.SyntaxError? ==>
      r.result == ErrorResult("Failed to parse server response: " + Interp(parse.message))
  {
    var base := NormalizeBase(storedUrl);
    if base == [] then
      FetchOutcome(None, ErrorResult("Pinry Base URL is not configured"))
    else
      var request := PinsRequest(base, storedToken, offset, limit);
      var result :=
        match reply
        case IoFailure(m) => ErrorResult("Network error: " + Interp(m))
        case Response(code, _, body) =>
          if !IsSuccessful(code) then
            ErrorResult("Server error (" + IntToString(code) + "): " + TakeUnits(body.GetOr(""), 200))
          else if body.GetOr("") == [] then
            ErrorResult("Empty response from server")
          else
            match parse
            case SyntaxError(m) => ErrorResult("Failed to parse server response: " + Interp(m))
            case Parsed(page) => PinFetchResult(true, page.results.GetOr([]), page.next.Some?, page.count, None);
      FetchOutcome(Some(request), result)
  }

  /** `validatePinryServer(baseUrl, token)`: 200 and 401 both mean the server is there. */
  function ValidatePinryServer(baseUrl: string, token: Option<string>, reply: Reply): (r: ValidationOutcome)
    ensures NormalizeBase(baseUrl) == [] ==>
      r == ValidationOutcome(None, ValidationResult(false, Some("URL cannot be empty")))
    ensures NormalizeBase(baseUrl) != [] ==> r.request == Some(ValidationRequest(NormalizeBase(baseUrl), token))
    ensures r.result.isValid <==> NormalizeBase(baseUrl) != [] && reply.Response? && (reply.code == 200 || reply.code == 401)
    ensures r.result.isValid <==> r.result.errorMessage.None?
    ensures NormalizeBase(baseUrl) != [] && reply.Response? && reply.code != 200 && reply.code != 401 ==>
      r.result.errorMessage == Some("Server returned " + IntToString(reply.code))
    ensures NormalizeBase(baseUrl) != [] && reply.IoFailure? ==>
      r.result.errorMessage == Some("Network error: " + Interp(reply.message))
  {
    var base := NormalizeBase(baseUrl);
    if base == [] then
      ValidationOutcome(None, ValidationResult(false, Some("URL cannot be empty")))
    else
      var request := ValidationRequest(base, token);
      var result :=
        match reply
        case IoFailure(m) => ValidationResult(false, Some("Network error: " + Interp(m)))
        case Response(code, _, _) =>
          if code == 200 || code == 401 then ValidationResult(true, None)
          else ValidationResult(false, Some("Server returned " + IntToString(code)));
      ValidationOutcome(Some(request), result)
  }
}
