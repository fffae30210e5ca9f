/** The client service deployed outside the mesh (app2_client_without_csm):
    it calls its target over HTTPS, either bare or with a freshly fetched
    identity token as a Bearer credential, and offers the same DNS
    diagnostic route as the mesh client. Its name defaults to "CLIENT". */
module ClientWithoutMeshService {
  import opened Http
  import Url

  const DefaultAppName := "CLIENT"

  /** `GET /call-without-authheader/{target_hostname}`: an HTTPS GET of the
      target with no headers of its own. */
  function CallTarget(appName: string, targetHostname: string, outcome: Outcome): (x: Exchange)
    ensures x.sent.url == "https://" + targetHostname
    ensures x.sent.headers == map[]
    ensures x.reply.Json? <==> Delivered(outcome)
    ensures x.reply.Json? ==> x.reply.fields == map["message" := appName + " <- " + DeliveredMessage(outcome)]
    ensures outcome.UpstreamStatus? ==> x.reply == HttpError(BadGateway, UpstreamError(
      "Error response received from " + targetHostname + ".", outcome.code, outcome.text))
    ensures outcome.RequestFailed? ==> x.reply == HttpError(ServiceUnavailable,
      Reason("Failed to call " + targetHostname + ". Reason: " + outcome.reason))
    ensures outcome.Ok? && !Delivered(outcome) ==> x.reply == HttpError(InternalServerError,
      Reason("An unexpected internal error occurred. Reason: " + MessageOf(outcome.body).exc.reason))
    ensures outcome.Other? ==> x.reply == HttpError(InternalServerError,
      Reason("An unexpected internal error occurred. Reason: " + outcome.reason))
    ensures x.reply.HttpError? && x.reply.status == InternalServerError
        <==> !Delivered(outcome) && (outcome.Ok? || outcome.Other?)
    ensures !x.reply.Raised?
  {
    var targetUrl := "https://" + targetHostname;
    Exchange(Get(targetUrl, map[]), Forward(appName, targetHostname, outcome))
  }

  /** The result of fetching an identity token for an audience: the token,
      opaque here, or the reason the fetch raised. */
  datatype TokenFetch = Fetched(idToken: string) | FetchFailed(reason: string)

  /** One call of the authenticated route: the audience it asked a token
      for, the request it sent (none when the token fetch raised) and its
      reply. */
  datatype AuthExchange = AuthExchange(audience: string, sent: Option<Get>, reply: Reply)

  /** `GET /call-with-authheader/{target_hostname}`: fetch an identity token
      for the target URL, then an HTTPS GET of the target carrying exactly
      `Authorization: Bearer <token>`. The fetch happens before the `try`,
      so its failure escapes the route instead of becoming 502, 503 or 500,
      and nothing is sent. */
  function CallTargetAuthheader(appName: string, targetHostname: string,
                                token: TokenFetch, outcome: Outcome): (x: AuthExchange)
    ensures x.audience == "https://" + targetHostname
    ensures x.sent.Some? <==> token.Fetched?
    ensures token.Fetched? ==> x.sent.value.url == "https://" + targetHostname
    ensures token.Fetched? ==> x.sent.value.headers == map["Authorization" := "Bearer " + token.idToken]
    ensures token.FetchFailed? ==> x.reply == Raised(token.reason)
    ensures x.reply.HttpError? || x.reply.Json? ==> token.Fetched?
    ensures token.Fetched? ==> x.reply == CallTarget(appName, targetHostname, outcome).reply
  {
    var targetUrl := "https://" + targetHostname;
    match token
    case FetchFailed(reason) => AuthExchange(targetUrl, None, Raised(reason))
    case Fetched(idToken) =>
      var headers := map["Authorization" := "Bearer " + idToken];
      AuthExchange(targetUrl, Some(Get(targetUrl, headers)), Forward(appName, targetHostname, outcome))
  }

  /** The token of an Authorization field value that uses the Bearer scheme
      (section 2.1 of RFC 6750), or None. */
  function BearerToken(field: string): Option<string> {
    if |field| >= 7 && field[..7] == "Bearer " then Some(field[7..]) else None
  }

  /** The Authorization header sent reads back as a Bearer credential
      carrying exactly the fetched token. */
  lemma AuthorizationCarriesToken(appName: string, targetHostname: string,
                                  idToken: string, outcome: Outcome)
    ensures var x := CallTargetAuthheader(appName, targetHostname, Fetched(idToken), outcome);
      && x.sent.Some?
      && "Authorization" in x.sent.value.headers
      && BearerToken(x.sent.value.headers["Authorization"]) == Some(idToken)
  {
  }

  /** Both call routes use HTTPS: the URL reads back as scheme "https" and
      the target hostname as the authority, with nothing after it. */
  lemma CallUrlsReadBack(appName: string, targetHostname: string, token: TokenFetch, outcome: Outcome)
    requires Url.IsAuthorityText(targetHostname)
    ensures Url.Split(CallTarget(appName, targetHostname, outcome).sent.url)
         == Some(Url.Parts("https", targetHostname, ""))
    ensures Url.Split(CallTargetAuthheader(appName, targetHostname, token, outcome).audience)
         == Some(Url.Parts("https", targetHostname, ""))
  {
    assert "https" + "://" == "https://";
    Url.SplitJoin("https", targetHostname, "");
    assert "https://" + targetHostname + "" == "https://" + targetHostname;
  }

  /** `GET /resolve-ip/{destination_hostname}`, identical to the mesh
      client's: never an HTTP error; always echoes the hostname, with status
      "Success" and the address, or "Failed" / "Error" with an error text and
      the exception's detail. */
  function ResolveIp(destinationHostname: string, lookup: Resolution): (r: Reply)
    ensures r.Json?
    ensures "status" in r.fields && "hostname" in r.fields
    ensures r.fields["hostname"] == destinationHostname
    ensures r.fields["status"] == "Success" <==> lookup.Resolved?
    ensures r.fields["status"] == "Failed" <==> lookup.Gai?
    ensures r.fields["status"] == "Error" <==> lookup.Unexpected?
    ensures "resolved_ip" in r.fields <==> lookup.Resolved?
    ensures lookup.Resolved? ==> r.fields["resolved_ip"] == lookup.ip
    ensures "error" in r.fields <==> !lookup.Resolved?
    ensures "detail" in r.fields <==> !lookup.Resolved?
    ensures !lookup.Resolved? ==> r.fields["detail"] == lookup.err
    ensures lookup.Gai? ==> r.fields["error"] == "Name resolution failed (socket.gaierror)"
    ensures lookup.Unexpected? ==> r.fields["error"] == "An unexpected error occurred"
    ensures r.fields.Keys <= {"status", "hostname", "resolved_ip", "error", "detail"}
  {
    match lookup
    case Resolved(ip) =>
      Json(map["status" := "Success", "hostname" := destinationHostname, "resolved_ip" := ip])
    case Gai(err) =>
      Json(map["status" := "Failed", "hostname" := destinationHostname,
               "error" := "Name resolution failed (socket.gaierror)", "detail" := err])
    case Unexpected(err) =>
      Json(map["status" := "Error", "hostname" := destinationHostname,
               "error" := "An unexpected error occurred", "detail" := err])
  }
}
