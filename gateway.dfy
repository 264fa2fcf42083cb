/** make_gnews_request without the HTTP call: the credential check, the in-place
    injection of the key into the caller's parameters, the URL, and the mapping
    of the exchange's outcome to the returned body or the raised error. */
module Gateway {
  import opened Wrappers
  import opened Text
  import opened Errors
  import opened QueryParams
  import opened Upstream

  const BaseUrl := "https://gnews.io/api/v4"
  const ApiKeyName := "apikey"
  const UnknownApiError := "Unknown API error"

  /** The GET the gateway issues: the URL and the query parameters sent with it. */
  datatype Request = Request(url: string, query: Query)

  function Url(endpoint: string): string
  {
    BaseUrl + "/" + endpoint
  }

  /** `if not GNEWS_KEY` fails for an unset and for an empty variable alike. */
  predicate HasKey(key: Option<string>) {
    key.Some? && key.value != ""
  }

  /** The error text for a non-200 response: never empty unless the API itself listed
      an empty first error, and always one of the listed error, the fallback, the raw
      text or a status line. */
  function ApiErrorMessage(status: nat, body: Option<Body>, text: string): (m: string)
    ensures m == "" ==>
      body.Some? && body.value.errors.Present? && |body.value.errors.value| > 0 && body.value.errors.value[0] == ""
    ensures || (body.Some? && body.value.errors.Present? && |body.value.errors.value| > 0 && m == body.value.errors.value[0])
            || m == UnknownApiError || m == text || (|m| > 5 && m[..5] == "HTTP ")
  {
    if body.Some? && !body.value.errors.Missing? then
      (if body.value.errors.Present? && |body.value.errors.value| > 0 then body.value.errors.value[0]
       else UnknownApiError)
    else if text != "" then text
    else "HTTP " + Decimal(status)
  }

  /** What the gateway returns or raises once the exchange is done. */
  function Respond(ex: Exchange): (r: Result<Option<Body>, Error>)
    ensures r.Success? <==> ex.Response? && ex.status == 200
    ensures r.Success? ==> r.value == ex.body
    ensures ex.Response? && ex.status != 200 ==> r == Failure(ApiError(ApiErrorMessage(ex.status, ex.body, ex.text)))
    ensures ex.TransportFailure? ==> r == Failure(RequestFailed(ex.reason))
  {
    match ex
    case TransportFailure(reason) => Failure(RequestFailed(reason))
    case Response(status, body, text) =>
      if status != 200 then Failure(ApiError(ApiErrorMessage(status, body, text))) else Success(body)
  }

  /** make_gnews_request(endpoint, params), with the configured key and the
      exchange that the issued request would meet passed in. `sent` is the
      request issued, None when none is. */
  method MakeGnewsRequest(endpoint: string, params: Params, key: Option<string>, ex: Exchange)
    returns (r: Result<Option<Body>, Error>, sent: Option<Request>)
    requires params.Valid()
    modifies params
    ensures params.Valid()
    ensures !HasKey(key) ==> r == Failure(MissingApiKey) && sent == None && params.Value() == old(params.Value())
    ensures HasKey(key) ==> params.Value() == old(params.Value()).Put(ApiKeyName, Str(key.value))
    ensures HasKey(key) ==> sent == Some(Request(Url(endpoint), params.Value())) && r == Respond(ex)
  {
    if !HasKey(key) {
      return Failure(MissingApiKey), None;
    }
    params.Set(ApiKeyName, Str(key.value));
    sent := Some(Request(Url(endpoint), params.Value()));
    r := Respond(ex);
  }

  /** The message comes from the response: the first listed error, the fallback for an
      empty or null list, the raw text, or the status line, in that order of preference. */
  lemma ApiErrorMessageSource(status: nat, body: Option<Body>, text: string)
    ensures var m := ApiErrorMessage(status, body, text);
      && (body.Some? && body.value.errors.Present? && |body.value.errors.value| > 0 ==> m == body.value.errors.value[0])
      && (body.Some? && (body.value.errors.Null? || body.value.errors == Present([])) ==> m == UnknownApiError)
      && ((body.None? || body.value.errors.Missing?) && text != "" ==> m == text)
      && ((body.None? || body.value.errors.Missing?) && text == "" ==> m[..5] == "HTTP " && AllDigits(m[5..]) && DecimalValue(m[5..]) == status)
  {
    DecimalRoundTrip(status);
  }

  lemma GatewayExamples()
    ensures Respond(Response(403, Some(Body(Present(["invalid api key"]), Missing, Missing)), "{\"errors\":[\"invalid api key\"]}"))
      == Failure(ApiError("invalid api key"))
    ensures Respond(Response(500, None, "")) == Failure(ApiError("HTTP 500"))
    ensures Respond(Response(500, None, "Internal Server Error")) == Failure(ApiError("Internal Server Error"))
    ensures Respond(Response(429, Some(Body(Present([]), Missing, Missing)), "{\"errors\":[]}")) == Failure(ApiError(UnknownApiError))
  {
    assert Decimal(500) == "500" by {
      assert Decimal(5) == "5";
      assert Decimal(50) == Decimal(5) + "0" == "50";
      assert Decimal(500) == Decimal(50) + "0";
    }
    assert ApiErrorMessage(500, None, "") == "HTTP " + "500" == "HTTP 500";
  }
}
