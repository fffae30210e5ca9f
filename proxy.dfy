/** The proxy service (app_proxy): it forwards a call to a target,
    propagating the inbound trace headers. Its name defaults to "PROXY". */
module ProxyService {
  import opened Http
  import TraceHeaders
  import Url

  const DefaultAppName := "PROXY"

  /** `GET /call/{target_hostname}`: a plain-HTTP GET of the target carrying
      the filtered trace headers; `outcome` is what became of that GET. */
  function CallTarget(appName: string, targetHostname: string,
                      inbound: seq<TraceHeaders.Header>, outcome: Outcome): (x: Exchange)
    ensures x.sent.url == "http://" + targetHostname
    ensures x.sent.headers == TraceHeaders.GetTraceHeaders(inbound)
    ensures x.reply.Json? <==> Delivered(outcome)
    ensures x.reply.Json? ==> x.reply.fields == map["message" := appName + " <- " + DeliveredMessage(outcome)]
    ensures outcome.UpstreamStatus? ==> x.reply == HttpError(BadGateway, UpstreamError(
      "Error response received from " + targetHostname + ".", outcome.code, outcome.text))
    ensures outcome.RequestFailed? ==> x.reply == HttpError(ServiceUnavailable,
      Reason("Failed to call " + targetHostname + ". Reason: " + outcome.reason))
    ensures outcome.Ok? && !Delivered(outcome) ==> x.reply == HttpError(InternalServerError,
      Reason("An unexpected internal error occurred. Reason: " + MessageOf(outcome.body).exc.reason))
    ensures outcome.Other? ==> x.reply == HttpError(InternalServerError,
      Reason("An unexpected internal error occurred. Reason: " + outcome.reason))
    ensures x.reply.HttpError? && x.reply.status == InternalServerError
        <==> !Delivered(outcome) && (outcome.Ok? || outcome.Other?)
    ensures !x.reply.Raised?
  {
    var targetUrl := "http://" + targetHostname;
    Exchange(Get(targetUrl, TraceHeaders.GetTraceHeaders(inbound)),
             Forward(appName, targetHostname, outcome))
  }

  /** The proxy calls its target over plain HTTP: the URL reads back as
      scheme "http" and the target hostname as the authority, with nothing
      after it. */
  lemma CallUrlReadsBack(appName: string, targetHostname: string,
                         inbound: seq<TraceHeaders.Header>, outcome: Outcome)
    requires Url.IsAuthorityText(targetHostname)
    ensures Url.Split(CallTarget(appName, targetHostname, inbound, outcome).sent.url)
         == Some(Url.Parts("http", targetHostname, ""))
  {
    assert "http" + "://" == "http://";
    Url.SplitJoin("http", targetHostname, "");
    assert "http://" + targetHostname + "" == "http://" + targetHostname;
  }
}
