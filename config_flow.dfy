/** `validate_input` of the configuration flow: normalise the entered user
    name and API key, build the lookup request, and classify how that one
    request ends as the entry's title and player uuid or as an error. */
module ConfigFlow {
  import opened Wrappers
  import Json
  import Text
  import Api

  /** How the lookup request ends: `aiohttp.ClientConnectorError`, any other
      exception while sending it (a timeout among them), or a response with
      its status and what `response.json()` gives (`None` when it raises). */
  datatype Outcome = ConnectorError | OtherError | Responded(status: int, json: Option<Json.Value>)

  /** The argument of the `InvalidAuth` raised. */
  datatype Reason = UserNotFound | InvalidApiKey | UnknownApiError

  /** The string each reason is raised with. */
  function ReasonString(reason: Reason): (r: string)
    ensures r in {"user_not_found", "invalid_api_key", "unknown_api_error"}
  {
    match reason
    case UserNotFound => "user_not_found"
    case InvalidApiKey => "invalid_api_key"
    case UnknownApiError => "unknown_api_error"
  }

  /** Distinct reasons are raised with distinct strings, so the string
      names the cause. */
  lemma ReasonStringInjective(a: Reason, b: Reason)
    requires ReasonString(a) == ReasonString(b)
    ensures a == b
  {
  }

  /** The two exceptions `validate_input` lets escape. */
  datatype FlowError = CannotConnect | InvalidAuth(reason: Reason)

  /** What a successful validation returns for the config entry. */
  datatype Info = Info(title: string, uuid: Json.Value)

  /** The user name, stripped: it neither starts nor ends with white space,
      stripping it again changes nothing, and it is empty exactly when the
      entered name is all white space. */
  function Username(data: map<string, string>): (u: string)
    requires "username" in data
    ensures u == [] || (!Text.IsSpace(u[0]) && !Text.IsSpace(u[|u| - 1]))
    ensures Text.Strip(u) == u
    ensures u == [] <==> Text.AllSpace(data["username"])
  {
    var raw := data["username"];
    Text.StripIdempotent(raw);
    Text.Strip(raw)
  }

  /** The API key, stripped, so that it neither starts nor ends with white
      space and stripping it again changes nothing; an absent key is the
      empty string. */
  function ApiKey(data: map<string, string>): (k: string)
    ensures "api_key" !in data ==> k == []
    ensures k == [] || (!Text.IsSpace(k[0]) && !Text.IsSpace(k[|k| - 1]))
    ensures Text.Strip(k) == k
  {
    var raw := if "api_key" in data then data["api_key"] else "";
    Text.StripIdempotent(raw);
    Text.Strip(raw)
  }

  /** The headers of the lookup request: `X-API-Key` carrying the key, and
      only when the key is non-empty and not some spelling of "none". */
  function KeyHeaders(key: string): (h: map<string, string>)
    ensures h.Keys <= {"X-API-Key"}
    ensures "X-API-Key" in h ==> h["X-API-Key"] == key
  {
    if key != [] && Text.Lower(key) != "none" then map["X-API-Key" := key] else map[]
  }

  /** The request `validate_input` sends. */
  function ValidationRequest(data: map<string, string>): (req: Api.Request)
    requires "username" in data
    ensures req.url == Api.LookupBase + Username(data)
    ensures req.headers == KeyHeaders(ApiKey(data))
  {
    Api.LookupUrlFormat(Username(data));
    Api.Request(Text.Format(Api.ApiLookupUrl, Username(data)), KeyHeaders(ApiKey(data)))
  }

  /** The key header is sent exactly when the entered key holds something
      other than white space and, stripped, is not "none" in any mix of
      cases; its value is then the stripped key, which neither starts nor
      ends with white space. */
  lemma KeyHeaderPresence(data: map<string, string>)
    ensures var raw := if "api_key" in data then data["api_key"] else "";
      var key := ApiKey(data);
      ("X-API-Key" in KeyHeaders(key) <==>
        !Text.AllSpace(raw) &&
        !(|key| == 4 && key[0] in "nN" && key[1] in "oO" && key[2] in "nN" && key[3] in "eE"))
    ensures "X-API-Key" in KeyHeaders(ApiKey(data)) ==>
      var v := KeyHeaders(ApiKey(data))["X-API-Key"];
      v == ApiKey(data) && v != [] && !Text.IsSpace(v[0]) && !Text.IsSpace(v[|v| - 1])
  {
    var raw := if "api_key" in data then data["api_key"] else "";
    assert ApiKey(data) == Text.Strip(raw);
    Text.StripEmptyIffBlank(raw);
    Text.LowerIsNone(ApiKey(data));
  }

  /** Stripping "  None " leaves "None". */
  lemma StripPaddedNone()
    ensures Text.Strip("  None ") == "None"
  {
    assert "  " + "None" + " " == "  None ";
    Text.StripPadded("  ", "None", " ");
  }

  /** A key entered as "  None " sends no key header. */
  lemma PaddedNoneSendsNoHeader()
    ensures KeyHeaders(ApiKey(map["api_key" := "  None "])) == map[]
  {
    StripPaddedNone();
    Text.LowerIsNone("None");
  }


  /** A key left out sends no key header. */
  lemma MissingKeySendsNoHeader()
    ensures KeyHeaders(ApiKey(map[])) == map[]
  {
    Text.StripEmptyIffBlank("");
  }

  /** The entry title: "Donut SMP: " and the stripped user name. */
  function Title(username: string): (t: string)
    ensures |t| == 11 + |username| && t[..11] == "Donut SMP: " && t[11..] == username
  {
    "Donut SMP: " + username
  }

  /** `validate_input`: a 404 is a missing user before any other status is
      considered; any other status of 400 or more is an invalid key for 401
      and an unknown error otherwise; a body that does not decode is an
      unknown error, a falsy body or a falsy or absent "uuid" a missing user,
      and a truthy body that is not an object an unknown error (its `.get`
      raises). A connection error cannot connect; any other exception is an
      unknown error. */
  function ValidateInput(data: map<string, string>, outcome: Outcome): (r: Result<Info, FlowError>)
    requires "username" in data
    ensures r.Success? <==>
      outcome.Responded? && outcome.status < 400 && outcome.json.Some? &&
      outcome.json.value.Object? && "uuid" in outcome.json.value.members &&
      Json.Truthy(outcome.json.value.members["uuid"])
    ensures r.Success? ==>
      r.value.title == Title(Username(data)) && r.value.uuid == outcome.json.value.members["uuid"]
  {
    match outcome
    case ConnectorError => Failure(CannotConnect)
    case OtherError => Failure(InvalidAuth(UnknownApiError))
    case Responded(status, json) =>
      if status == 404 then Failure(InvalidAuth(UserNotFound))
      else if status >= 400 then
        if status == 401 then Failure(InvalidAuth(InvalidApiKey)) else Failure(InvalidAuth(UnknownApiError))
      else
        match json
        case None => Failure(InvalidAuth(UnknownApiError))
        case Some(body) =>
          if !Json.Truthy(body) then Failure(InvalidAuth(UserNotFound))
          else if !body.Object? then Failure(InvalidAuth(UnknownApiError))
          else if "uuid" !in body.members || !Json.Truthy(body.members["uuid"]) then
            Failure(InvalidAuth(UserNotFound))
          else Success(Info(Title(Username(data)), body.members["uuid"]))
  }

  /** A 404 is a missing user whatever the body. */
  lemma NotFoundFirst(data: map<string, string>, json: Option<Json.Value>)
    requires "username" in data
    ensures ValidateInput(data, Responded(404, json)) == Failure(InvalidAuth(UserNotFound))
  {
  }

  /** Other error statuses: 401 is an invalid key, every other status of 400
      or more an unknown error, whatever the body. */
  lemma ErrorStatuses(data: map<string, string>, status: int, json: Option<Json.Value>)
    requires "username" in data && status >= 400 && status != 404
    ensures ValidateInput(data, Responded(status, json)) ==
      Failure(InvalidAuth(if status == 401 then InvalidApiKey else UnknownApiError))
  {
  }

  /** Below 400, an empty or falsy body, or an object without a truthy
      "uuid", is a missing user; a body that does not decode, or a truthy
      body that is not an object, is an unknown error. */
  lemma BodyWithoutUuid(data: map<string, string>, status: int, json: Option<Json.Value>)
    requires "username" in data && status < 400
    ensures json.None? ==> ValidateInput(data, Responded(status, json)) == Failure(InvalidAuth(UnknownApiError))
    ensures json.Some? && !Json.Truthy(json.value) ==>
      ValidateInput(data, Responded(status, json)) == Failure(InvalidAuth(UserNotFound))
    ensures (json.Some? && json.value.Object? &&
             ("uuid" !in json.value.members || !Json.Truthy(json.value.members["uuid"]))) ==>
      ValidateInput(data, Responded(status, json)) == Failure(InvalidAuth(UserNotFound))
    ensures json.Some? && Json.Truthy(json.value) && !json.value.Object? ==>
      ValidateInput(data, Responded(status, json)) == Failure(InvalidAuth(UnknownApiError))
  {
  }

  /** Exceptions while sending: a connection error cannot connect, any other
      is an unknown error. */
  lemma SendErrors(data: map<string, string>)
    requires "username" in data
    ensures ValidateInput(data, ConnectorError) == Failure(CannotConnect)
    ensures ValidateInput(data, OtherError) == Failure(InvalidAuth(UnknownApiError))
  {
  }

  /** Every failure is one of the two exceptions with the reasons listed; a
      missing user is reported only for a 404 or a body without a usable
      uuid, an invalid key only for a 401, and an unknown error exactly for
      an exception other than a connection error, another error status, or
      a body below 400 that does not decode or is truthy but not an
      object. */
  lemma FailureCauses(data: map<string, string>, outcome: Outcome)
    requires "username" in data
    ensures ValidateInput(data, outcome) == Failure(CannotConnect) <==> outcome.ConnectorError?
    ensures ValidateInput(data, outcome) == Failure(InvalidAuth(InvalidApiKey)) <==>
      outcome.Responded? && outcome.status == 401
    ensures ValidateInput(data, outcome) == Failure(InvalidAuth(UserNotFound)) ==>
      outcome.Responded? && (outcome.status == 404 || (outcome.status < 400 && outcome.json.Some?))
    ensures ValidateInput(data, outcome) == Failure(InvalidAuth(UnknownApiError)) <==>
      outcome.OtherError? ||
      (outcome.Responded? &&
       ((outcome.status >= 400 && outcome.status != 404 && outcome.status != 401) ||
        (outcome.status < 400 &&
         (outcome.json.None? || (Json.Truthy(outcome.json.value) && !outcome.json.value.Object?)))))
  {
  }
}
