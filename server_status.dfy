/**
  The frontend's health probe: one GET of `<url>/health` classified as online
  or offline with a readable reason, and the primary-then-production fallback
  built on it.
 */
module ServerStatus {
  import opened Wrappers
  import opened Text

  /** `response.data` of the health request; `Object(status)` holds the `status` member when it is a string. */
  datatype Body = Null | Undefined | Object(status: Option<string>)

  /** What axios rejects with: `code`, the HTTP status of `response` if any, whether `request` was sent, `message`. */
  datatype AxiosError = AxiosError(code: Option<string>, response: Option<int>, request: bool, message: string)

  /** How the GET ended. */
  datatype HttpOutcome = Responded(data: Body) | Failed(err: AxiosError)

  datatype Health = Online | Offline

  /** `details`: the response body, or `{error: err.message}` after an exception. */
  datatype Details = Data(body: Body) | ErrorDetails(message: string)

  datatype StatusResult = StatusResult(
    status: Health,
    error: Option<string>,
    details: Details,
    url: string,
    isFallback: Option<bool>,
    primaryError: Option<string>)

  const DefaultTimeoutMs: nat := 5000

  const NotProper := "Server is not responding properly"

  /** The TypeError V8 raises when `response.data` has no properties to read `status` from. */
  function NoPropertiesMessage(data: Body): string
  {
    "Cannot read properties of " + (if data.Null? then "null" else "undefined") + " (reading 'status')"
  }

  /**
    The message chosen in the `catch` block; the checks are made in this
    order, so a timeout wins over a response, and a response over a request
    that got none.
   */
  function ErrorMessage(err: AxiosError): (msg: string)
    ensures err.code == Some("ECONNABORTED") ==> msg == "Connection timed out"
    ensures err.code != Some("ECONNABORTED") && err.response.Some? ==>
      msg == "Server error: " + IntToString(err.response.value)
    ensures err.code != Some("ECONNABORTED") && err.response.None? ==>
      msg == (if err.request then "No response from server" else "Cannot connect to server")
  {
    if err.code == Some("ECONNABORTED") then "Connection timed out"
    else if err.response.Some? then "Server error: " + IntToString(err.response.value)
    else if err.request then "No response from server"
    else "Cannot connect to server"
  }

  /**
    `checkSingleServerHealth(url)`: `probe` performs `GET <url>/health` with
    the given timeout. The server is online exactly when it answered with a
    body whose `status` is the string "healthy"; an offline result always
    carries a reason, an online one never does.
   */
  function CheckSingleServerHealth(url: string, probe: (string, nat) -> HttpOutcome): (r: StatusResult)
    ensures r.url == url && r.isFallback.None? && r.primaryError.None?
    ensures r.status == Online <==> probe(url + "/health", DefaultTimeoutMs) == Responded(Object(Some("healthy")))
    ensures r.status == Online <==> r.error.None?
    ensures match probe(url + "/health", DefaultTimeoutMs)
      case Responded(Object(st)) => st != Some("healthy") ==> r.error == Some(NotProper) && r.details == Data(Object(st))
      case Responded(_) => r.error == Some("Cannot connect to server")
      case Failed(err) => r.error == Some(ErrorMessage(err)) && r.details == ErrorDetails(err.message)
  {
    match probe(url + "/health", DefaultTimeoutMs)
    case Responded(data) =>
      if data.Object? then
        if data.status == Some("healthy") then StatusResult(Online, None, Data(data), url, None, None)
        else StatusResult(Offline, Some(NotProper), Data(data), url, None, None)
      else
        // reading `status` of null or undefined throws a TypeError, which has no code, response or request
        var err := AxiosError(None, None, false, NoPropertiesMessage(data));
        StatusResult(Offline, Some(ErrorMessage(err)), ErrorDetails(err.message), url, None, None)
    case Failed(err) =>
      StatusResult(Offline, Some(ErrorMessage(err)), ErrorDetails(err.message), url, None, None)
  }

  /** JavaScript truthiness of the production URL (`null`, `undefined` and `""` are false). */
  predicate Truthy(url: Option<string>)
  {
    url.Some? && url.value != ""
  }

  /** The result of `checkServerHealth` and the base URLs it probed, in order. */
  datatype FallbackCheck = FallbackCheck(result: StatusResult, probed: seq<string>)

  /**
    `checkServerHealth(primaryUrl, productionUrl)`: without a production URL
    only the primary is probed. Otherwise the primary is probed first and
    the production server only when the primary is offline; an online
    production server is returned marked as fallback with the primary's
    error, and when both are offline the primary's result is returned.
   */
  function CheckServerHealth(primaryUrl: string, productionUrl: Option<string>,
                             probe: (string, nat) -> HttpOutcome): (c: FallbackCheck)
    ensures var p := CheckSingleServerHealth(primaryUrl, probe);
      && c.probed == (if Truthy(productionUrl) && p.status == Offline then [primaryUrl, productionUrl.value] else [primaryUrl])
      && (c.result.status == Online <==>
            p.status == Online
            || (Truthy(productionUrl) && CheckSingleServerHealth(productionUrl.value, probe).status == Online))
      && (c.result.isFallback == Some(true) <==>
            Truthy(productionUrl) && p.status == Offline && CheckSingleServerHealth(productionUrl.value, probe).status == Online)
      && (c.result.isFallback == Some(true) ==>
            c.result.url == productionUrl.value && c.result.primaryError == p.error)
      && (c.result.isFallback.None? ==> c.result == p)
  {
    var p := CheckSingleServerHealth(primaryUrl, probe);
    if !Truthy(productionUrl) then FallbackCheck(p, [primaryUrl])
    else if p.status == Online then FallbackCheck(p, [primaryUrl])
    else
      var q := CheckSingleServerHealth(productionUrl.value, probe);
      if q.status == Online then FallbackCheck(q.(isFallback := Some(true), primaryError := p.error), [primaryUrl, productionUrl.value])
      else FallbackCheck(p, [primaryUrl, productionUrl.value])
  }

  /**
    The URL of an online result is one of the two configured base URLs: the
    production URL exactly when the result is marked as fallback.
   */
  lemma OnlineUrl(primaryUrl: string, productionUrl: Option<string>, probe: (string, nat) -> HttpOutcome)
    ensures var r := CheckServerHealth(primaryUrl, productionUrl, probe).result;
      r.status == Online ==>
        if r.isFallback == Some(true) then Truthy(productionUrl) && r.url == productionUrl.value else r.url == primaryUrl
  {
  }

  /** A healthy primary server is never replaced by the production server. */
  lemma PrimaryPreferred(primaryUrl: string, productionUrl: Option<string>, probe: (string, nat) -> HttpOutcome)
    requires probe(primaryUrl + "/health", DefaultTimeoutMs) == Responded(Object(Some("healthy")))
    ensures CheckServerHealth(primaryUrl, productionUrl, probe) ==
      FallbackCheck(StatusResult(Online, None, Data(Object(Some("healthy"))), primaryUrl, None, None), [primaryUrl])
  {
  }
}
