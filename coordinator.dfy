/** The polling coordinator: the object that holds the user's credentials,
    the two requests it sends on every poll, and the ordered checks that
    turn the two responses into the polled data or an `UpdateFailed`. */
module Coordinator {
  import opened Wrappers
  import Json
  import Text
  import Api

  /** One endpoint's response as `_async_update_data` sees it: the status,
      the text body, and what `resp.json()` gives, either the decoded value
      or the message of the exception it raises. */
  datatype Response = Response(status: int, text: string, json: Result<Json.Value, string>)

  /** How the timed block that sends both requests and reads both bodies
      ends: the timeout fires, another exception is raised (with its
      message), or both responses are in hand, lookup first. */
  datatype Fetch = TimedOut | Raised(err: string) | Fetched(lookup: Response, stats: Response)

  /** The reasons `_async_update_data` raises `UpdateFailed`. */
  datatype Failed =
    | Timeout
    | NetworkError(err: string)
    | InvalidApiKey
    | ServerError
    | LookupEndpointError(status: int, text: string)
    | StatsEndpointError(status: int, text: string)
    | InvalidLookupJson(err: string)
    | InvalidStatsJson(err: string)

  /** The message the `UpdateFailed` carries: a fixed text for a timeout,
      a 401 and a 5xx; otherwise it names the failure and the endpoint and
      ends with the detail the failure holds (the exception text, or the
      status code and the response body). */
  function Message(f: Failed): (m: string)
    ensures m != []
    ensures f.Timeout? ==> m == "Timeout contacting DonutSMP API"
    ensures f.InvalidApiKey? ==> m == "Invalid API key (401)"
    ensures f.ServerError? ==> m == "DonutSMP server error (5xx)"
    ensures f.NetworkError? ==> Text.StartsWith(m, "Network error: ") && Text.EndsWith(m, f.err)
    ensures f.InvalidLookupJson? ==> Text.StartsWith(m, "Invalid lookup JSON: ") && Text.EndsWith(m, f.err)
    ensures f.InvalidStatsJson? ==> Text.StartsWith(m, "Invalid stats JSON: ") && Text.EndsWith(m, f.err)
    ensures f.LookupEndpointError? ==>
      Text.StartsWith(m, "Lookup endpoint error ") && Text.EndsWith(m, ": " + f.text)
    ensures f.StatsEndpointError? ==>
      Text.StartsWith(m, "Stats endpoint error ") && Text.EndsWith(m, ": " + f.text)
  {
    match f
    case Timeout => "Timeout contacting DonutSMP API"
    case NetworkError(err) =>
      Text.ConcatEnds("Network error: ", err);
      "Network error: " + err
    case InvalidApiKey => "Invalid API key (401)"
    case ServerError => "DonutSMP server error (5xx)"
    case LookupEndpointError(status, text) =>
      Text.ConcatEnds3("Lookup endpoint error ", Text.IntString(status), ": " + text);
      "Lookup endpoint error " + Text.IntString(status) + (": " + text)
    case StatsEndpointError(status, text) =>
      Text.ConcatEnds3("Stats endpoint error ", Text.IntString(status), ": " + text);
      "Stats endpoint error " + Text.IntString(status) + (": " + text)
    case InvalidLookupJson(err) =>
      Text.ConcatEnds("Invalid lookup JSON: ", err);
      "Invalid lookup JSON: " + err
    case InvalidStatsJson(err) =>
      Text.ConcatEnds("Invalid stats JSON: ", err);
      "Invalid stats JSON: " + err
  }

  /** An endpoint-error message names the status code: for one body text,
      different codes give different messages. */
  lemma EndpointMessageNamesStatus(a: int, b: int, text: string)
    requires Message(LookupEndpointError(a, text)) == Message(LookupEndpointError(b, text))
      || Message(StatsEndpointError(a, text)) == Message(StatsEndpointError(b, text))
    ensures a == b
  {
    if Message(LookupEndpointError(a, text)) == Message(LookupEndpointError(b, text)) {
      Text.CancelAround("Lookup endpoint error ", Text.IntString(a), Text.IntString(b), ": ", text);
    } else {
      Text.CancelAround("Stats endpoint error ", Text.IntString(a), Text.IntString(b), ": ", text);
    }
    Text.IntStringInjective(a, b);
  }

  /** `DonutsCoordinator`: what its constructor stores and the requests a
      poll sends. The fields never change after construction. */
  class DonutsCoordinator {
    const username: string
    const apiKey: string
    /** The name handed to the update coordinator. */
    const name: string
    /** Seconds between polls. */
    const updateInterval: nat

    constructor (username: string, apiKey: string)
      ensures this.username == username && this.apiKey == apiKey
      ensures name == Api.Domain + "_" + username
      ensures updateInterval == Api.ScanInterval
    {
      this.username := username;
      this.apiKey := apiKey;
      this.name := Api.Domain + "_" + username;
      this.updateInterval := Api.ScanInterval;
    }

    /** The headers of both requests: a Bearer authorization built from the
        key as stored, whatever it is. */
    function Headers(): (h: map<string, string>)
      ensures h.Keys == {"Authorization"}
      ensures h["Authorization"] == "Bearer " + apiKey
    {
      map["Authorization" := "Bearer " + apiKey]
    }

    /** The lookup request: the lookup template formatted with the user
        name, with `Headers()`. */
    function LookupRequest(): (req: Api.Request)
      ensures req.url == Api.LookupBase + username && req.headers == Headers()
    {
      Api.LookupUrlFormat(username);
      Api.Request(Text.Format(Api.ApiLookupUrl, username), Headers())
    }

    /** The stats request: the stats template formatted with the user name,
        with `Headers()`. */
    function StatsRequest(): (req: Api.Request)
      ensures req.url == Api.StatsBase + username && req.headers == Headers()
    {
      Api.StatsUrlFormat(username);
      Api.Request(Text.Format(Api.ApiStatsUrl, username), Headers())
    }

    /** The two requests a poll sends, in the order it sends them: lookup
        first, then stats; they carry the same headers and go to different
        URLs. */
    function Requests(): (reqs: seq<Api.Request>)
      ensures |reqs| == 2 && reqs[0].url != reqs[1].url
      ensures reqs[0].url == Api.LookupBase + username && reqs[1].url == Api.StatsBase + username
      ensures reqs[0].headers == reqs[1].headers == Headers()
    {
      Api.EndpointsDiffer(username, username);
      [LookupRequest(), StatsRequest()]
    }
  }

  /** The data a successful poll returns: the two decoded bodies under the
      keys "lookup" and "stats". */
  function Combined(lookup: Json.Value, stats: Json.Value): (data: map<string, Json.Value>)
    ensures data.Keys == {"lookup", "stats"}
    ensures data["lookup"] == lookup && data["stats"] == stats
  {
    map["lookup" := lookup, "stats" := stats]
  }

  /** `_async_update_data` after its fetch block: a timeout or any other
      exception fails; then, in order, a 401 on either endpoint, a status of
      500 or more on either, a lookup status other than 200, a stats status
      other than 200, an undecodable lookup body and an undecodable stats
      body each fail; otherwise both decoded bodies are returned. */
  function UpdateData(fetch: Fetch): (r: Result<map<string, Json.Value>, Failed>)
    ensures fetch.TimedOut? ==> r == Failure(Timeout)
    ensures fetch.Raised? ==> r == Failure(NetworkError(fetch.err))
    ensures r.Success? <==>
      fetch.Fetched? && fetch.lookup.status == 200 && fetch.stats.status == 200 &&
      fetch.lookup.json.Success? && fetch.stats.json.Success?
    ensures r.Success? ==> r.value == Combined(fetch.lookup.json.value, fetch.stats.json.value)
  {
    match fetch
    case TimedOut => Failure(Timeout)
    case Raised(err) => Failure(NetworkError(err))
    case Fetched(lookup, stats) =>
      if lookup.status == 401 || stats.status == 401 then Failure(InvalidApiKey)
      else if lookup.status >= 500 || stats.status >= 500 then Failure(ServerError)
      else if lookup.status != 200 then Failure(LookupEndpointError(lookup.status, lookup.text))
      else if stats.status != 200 then Failure(StatsEndpointError(stats.status, stats.text))
      else
        match lookup.json
        case Failure(err) => Failure(InvalidLookupJson(err))
        case Success(lookupData) =>
          match stats.json
          case Failure(err) => Failure(InvalidStatsJson(err))
          case Success(statsData) => Success(Combined(lookupData, statsData))
  }

  /** One guard of the ordered series: whether it trips, and the failure it
      reports then. */
  datatype Check = Check(trips: bool, failure: Failed)

  /** The position of the first guard that trips, if any. */
  function FirstTripped(checks: seq<Check>): (r: Option<nat>)
    ensures r.Some? ==>
      r.value < |checks| && checks[r.value].trips && forall j :: 0 <= j < r.value ==> !checks[j].trips
    ensures r.None? ==> forall j :: 0 <= j < |checks| ==> !checks[j].trips
  {
    if checks == [] then None
    else if checks[0].trips then Some(0)
    else match FirstTripped(checks[1..])
      case Some(i) => Some(i + 1)
      case None => None
  }

  function JsonError(json: Result<Json.Value, string>): string
  {
    if json.Failure? then json.error else ""
  }

  /** The guards `_async_update_data` applies to two responses, in the
      order the code tests them. */
  function Checks(lookup: Response, stats: Response): (checks: seq<Check>)
  {
    [ Check(lookup.status == 401 || stats.status == 401, InvalidApiKey),
      Check(lookup.status >= 500 || stats.status >= 500, ServerError),
      Check(lookup.status != 200, LookupEndpointError(lookup.status, lookup.text)),
      Check(stats.status != 200, StatsEndpointError(stats.status, stats.text)),
      Check(lookup.json.Failure?, InvalidLookupJson(JsonError(lookup.json))),
      Check(stats.json.Failure?, InvalidStatsJson(JsonError(stats.json))) ]
  }

  /** The poll reports the failure of the first guard that trips, in the
      code's order, and succeeds exactly when none trips. */
  lemma UpdateDataIsFirstTrippedCheck(lookup: Response, stats: Response)
    ensures var checks := Checks(lookup, stats);
      match FirstTripped(checks)
      case Some(i) => UpdateData(Fetched(lookup, stats)) == Failure(checks[i].failure)
      case None => UpdateData(Fetched(lookup, stats)).Success?
  {
    var checks := Checks(lookup, stats);
    var r := FirstTripped(checks);
    if checks[0].trips {
      assert r == Some(0);
    } else if checks[1].trips {
      assert r == Some(1);
    } else if checks[2].trips {
      assert r == Some(2);
    } else if checks[3].trips {
      assert r == Some(3);
    } else if checks[4].trips {
      assert r == Some(4);
    } else if checks[5].trips {
      assert r == Some(5);
    } else {
      assert r == None;
    }
  }

  /** A 401 on either endpoint is reported as an invalid key, whatever the
      other status and whatever the bodies. */
  lemma UnauthorizedFirst(lookup: Response, stats: Response)
    requires lookup.status == 401 || stats.status == 401
    ensures UpdateData(Fetched(lookup, stats)) == Failure(InvalidApiKey)
  {
    UpdateDataIsFirstTrippedCheck(lookup, stats);
  }

  /** Without a 401, a status of 500 or more on either endpoint is a server
      error, whatever the other status. */
  lemma ServerErrorSecond(lookup: Response, stats: Response)
    requires lookup.status != 401 && stats.status != 401
    requires lookup.status >= 500 || stats.status >= 500
    ensures UpdateData(Fetched(lookup, stats)) == Failure(ServerError)
  {
    UpdateDataIsFirstTrippedCheck(lookup, stats);
  }

  /** Past those two guards, a lookup status other than 200 is reported
      before anything about the stats response, 201 and 204 included. */
  lemma LookupStatusBeforeStats(lookup: Response, stats: Response)
    requires lookup.status != 401 && stats.status != 401
    requires lookup.status < 500 && stats.status < 500
    requires lookup.status != 200
    ensures UpdateData(Fetched(lookup, stats)) == Failure(LookupEndpointError(lookup.status, lookup.text))
  {
    UpdateDataIsFirstTrippedCheck(lookup, stats);
  }

  /** A stats status other than 200 after a lookup 200 is a stats endpoint
      error, unless it is 401 or 500 or more. */
  lemma StatsStatusThird(lookup: Response, stats: Response)
    requires lookup.status == 200 && stats.status != 200
    requires stats.status != 401 && stats.status < 500
    ensures UpdateData(Fetched(lookup, stats)) == Failure(StatsEndpointError(stats.status, stats.text))
  {
    UpdateDataIsFirstTrippedCheck(lookup, stats);
  }

  /** With two 200s an undecodable lookup body is reported, whether or not
      the stats body decodes; an undecodable stats body only after a good
      lookup body. */
  lemma JsonChecksOrdered(lookup: Response, stats: Response)
    requires lookup.status == 200 && stats.status == 200
    ensures lookup.json.Failure? ==>
      UpdateData(Fetched(lookup, stats)) == Failure(InvalidLookupJson(lookup.json.error))
    ensures lookup.json.Success? && stats.json.Failure? ==>
      UpdateData(Fetched(lookup, stats)) == Failure(InvalidStatsJson(stats.json.error))
  {
    UpdateDataIsFirstTrippedCheck(lookup, stats);
  }
}
