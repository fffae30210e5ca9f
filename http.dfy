/** What the forwarding routes of all three services have in common: the
    outcome of the one outbound GET they issue, the exceptions their `try`
    block can raise, the reply they return, and the `except` chain that turns
    an exception into an HTTP error. */
module Http {

  datatype Option<T> = None | Some(value: T)

  /** A JSON value found under the "message" key. Only its text matters to
      the routes: a string is used as it is; any other value is formatted by
      Python, which the model takes as the opaque text `formatted`. */
  datatype JsonValue = JString(s: string) | JOther(formatted: string)

  function TextOf(v: JsonValue): string {
    match v
    case JString(s) => s
    case JOther(formatted) => formatted
  }

  /** The body of a 2xx upstream response, as `response.json()` sees it:
      a JSON object, some other JSON value (indexing it by a string raises a
      TypeError with text `reason`), or not JSON at all (decoding raises a
      ValueError with text `reason`). */
  datatype Body =
    | JsonObject(fields: map<string, JsonValue>)
    | JsonNonObject(reason: string)
    | NotJson(reason: string)

  /** What became of the outbound GET, as the httpx client reports it:
      a response that passed `raise_for_status`, an error status that it
      rejected (with the upstream status code and body text), a transport
      failure (`httpx.RequestError`), or any other exception raised while
      the request was made. */
  datatype Outcome =
    | Ok(body: Body)
    | UpstreamStatus(code: int, text: string)
    | RequestFailed(reason: string)
    | Other(reason: string)

  /** An exception raised inside a route's `try` block, by the class the
      `except` clauses test for. */
  datatype Exception =
    | HttpStatusError(statusCode: int, text: string)
    | RequestError(reason: string)
    | OtherException(reason: string)

  datatype Result<T> = Success(value: T) | Failure(exc: Exception)

  /** The `detail` of an HTTPException: a plain reason text, or the
      structured envelope of the 502 reply. */
  datatype Detail =
    | Reason(text: string)
    | UpstreamError(message: string, targetStatusCode: int, targetResponse: string)

  /** What a route hands back to the framework: a JSON object (every value
      the routes put in one is a string), an HTTPException, or an exception
      that escapes the route unhandled. */
  datatype Reply =
    | Json(fields: map<string, string>)
    | HttpError(status: int, detail: Detail)
    | Raised(reason: string)

  /** An outbound GET: the URL and the headers attached to it. */
  datatype Get = Get(url: string, headers: map<string, string>)

  /** One call of a forwarding route: the request it sent and its reply,
      given the outcome of that request. */
  datatype Exchange = Exchange(sent: Get, reply: Reply)

  const BadGateway := 502
  const ServiceUnavailable := 503
  const InternalServerError := 500

  /** The text of the KeyError that `response.json()["message"]` raises when
      the object has no "message" key. */
  const MissingMessageText := "'message'"

  /** `response.json()["message"]`, formatted for the f-string: the message
      text, or the (non-httpx) exception it raises. */
  function MessageOf(body: Body): (r: Result<string>)
    ensures r.Success? <==> body.JsonObject? && "message" in body.fields
    ensures r.Success? ==> r.value == TextOf(body.fields["message"])
    ensures r.Failure? ==> r.exc.OtherException?
    ensures body.JsonObject? && "message" !in body.fields ==> r == Failure(OtherException(MissingMessageText))
  {
    match body
    case JsonObject(fields) =>
      if "message" in fields then Success(TextOf(fields["message"]))
      else Failure(OtherException(MissingMessageText))
    case JsonNonObject(reason) => Failure(OtherException(reason))
    case NotJson(reason) => Failure(OtherException(reason))
  }

  /** The outcome carries a body with a "message" the route can use. */
  predicate Delivered(outcome: Outcome) {
    outcome.Ok? && MessageOf(outcome.body).Success?
  }

  /** The upstream message of a delivered outcome. */
  function DeliveredMessage(outcome: Outcome): string
    requires Delivered(outcome)
  {
    MessageOf(outcome.body).value
  }

  /** The `try` block of a forwarding route: the upstream message, or the
      exception raised on the way to it. */
  function TryBlock(outcome: Outcome): (r: Result<string>)
    ensures r.Success? <==> Delivered(outcome)
    ensures r.Failure? && r.exc.HttpStatusError? <==> outcome.UpstreamStatus?
    ensures r.Failure? && r.exc.RequestError? <==> outcome.RequestFailed?
    ensures r.Success? ==> r.value == DeliveredMessage(outcome)
    ensures outcome.Ok? ==> r == MessageOf(outcome.body)
    ensures outcome.UpstreamStatus? ==> r == Failure(HttpStatusError(outcome.code, outcome.text))
    ensures outcome.RequestFailed? ==> r == Failure(RequestError(outcome.reason))
    ensures outcome.Other? ==> r == Failure(OtherException(outcome.reason))
  {
    match outcome
    case Ok(body) => MessageOf(body)
    case UpstreamStatus(code, text) => Failure(HttpStatusError(code, text))
    case RequestFailed(reason) => Failure(RequestError(reason))
    case Other(reason) => Failure(OtherException(reason))
  }

  /** The `except` clauses, tried in the order they are written:
      HTTPStatusError, then RequestError, then any Exception. Each one names
      `host`, the host the route called. */
  function Catch(exc: Exception, host: string): (r: Reply)
    ensures r.HttpError?
    ensures r.status == BadGateway <==> exc.HttpStatusError?
    ensures r.status == ServiceUnavailable <==> exc.RequestError?
    ensures r.status == InternalServerError <==> exc.OtherException?
    ensures exc.HttpStatusError? ==> r.detail == UpstreamError(
      "Error response received from " + host + ".", exc.statusCode, exc.text)
    ensures exc.RequestError? ==> r.detail == Reason("Failed to call " + host + ". Reason: " + exc.reason)
    ensures exc.OtherException? ==> r.detail == Reason("An unexpected internal error occurred. Reason: " + exc.reason)
  {
    if exc.HttpStatusError? then
      HttpError(BadGateway, UpstreamError(
        "Error response received from " + host + ".", exc.statusCode, exc.text))
    else if exc.RequestError? then
      HttpError(ServiceUnavailable, Reason("Failed to call " + host + ". Reason: " + exc.reason))
    else
      HttpError(InternalServerError, Reason("An unexpected internal error occurred. Reason: " + exc.reason))
  }

  /** The reply of a forwarding route running as `appName` that called
      `host`, given what became of the call. Every outcome is caught: a
      usable message gives `appName <- message`; an upstream error status
      gives 502 carrying that status and body unchanged; a transport failure
      gives 503; everything else, including a 2xx body that is not JSON or
      has no "message", gives 500. */
  function Forward(appName: string, host: string, outcome: Outcome): (r: Reply)
    ensures !r.Raised?
    ensures r.Json? <==> Delivered(outcome)
    ensures r.Json? ==> r.fields == map["message" := appName + " <- " + DeliveredMessage(outcome)]
    ensures r.HttpError? && r.status == BadGateway <==> outcome.UpstreamStatus?
    ensures outcome.UpstreamStatus? ==> r.detail == UpstreamError(
      "Error response received from " + host + ".", outcome.code, outcome.text)
    ensures r.HttpError? && r.status == ServiceUnavailable <==> outcome.RequestFailed?
    ensures outcome.RequestFailed? ==> r.detail == Reason("Failed to call " + host + ". Reason: " + outcome.reason)
    ensures r.HttpError? && r.status == InternalServerError <==> !Delivered(outcome) && (outcome.Ok? || outcome.Other?)
    ensures outcome.Other? ==> r.detail == Reason("An unexpected internal error occurred. Reason: " + outcome.reason)
    ensures outcome.Ok? && !Delivered(outcome) ==> r.detail == Reason(
      "An unexpected internal error occurred. Reason: " + MessageOf(outcome.body).exc.reason)
  {
    match TryBlock(outcome)
    case Success(message) => Json(map["message" := appName + " <- " + message])
    case Failure(exc) => Catch(exc, host)
  }

  /** The `/` route of every service: a JSON object whose only key,
      "message", holds the service's own name. */
  function Greeting(appName: string): (r: Reply)
    ensures r.Json? && r.fields.Keys == {"message"} && r.fields["message"] == appName
  {
    Json(map["message" := appName])
  }

  /** The result of `socket.gethostbyname`: an IPv4 address, a
      `socket.gaierror`, or any other exception, each with its text. */
  datatype Resolution = Resolved(ip: string) | Gai(err: string) | Unexpected(err: string)
}
