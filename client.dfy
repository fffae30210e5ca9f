/** The client service (app_client): it calls a target directly or through
    a proxy, propagating the inbound trace headers, and offers a DNS
    diagnostic route. Its name defaults to "CLIENT". */
module ClientService {
  import opened Http
  import TraceHeaders
  import Url

  const DefaultAppName := "CLIENT"

  /** `GET /call/{target_hostname}`: a plain-HTTP GET of the target carrying
      the filtered trace headers; `outcome` is what became of that GET. */
  function CallTarget(appName: string, targetHostname: string,
                      inbound: seq<TraceHeaders.Header>, outcome: Outcome): (x: Exchange)
    ensures x.sent.url == "http://" + targetHostname
    ensures x.sent.headers == TraceHeaders.GetTraceHeaders(inbound)
    ensures x.reply.Json? <==> Delivered(outcome)
    ensures x.reply.Json? ==> x.reply.fields == map["message" := appName + " <- " + DeliveredMessage(outcome)]
    ensures outcome.UpstreamStatus? ==> x.reply == HttpError(BadGateway, UpstreamError(
      "Error response received from " + targetHostname + ".", outcome.code, outcome.text))
    ensures outcome.RequestFailed? ==> x.reply == HttpError(ServiceUnavailable,
      Reason("Failed to call " + targetHostname + ". Reason: " + outcome.reason))
    ensures outcome.Ok? && !Delivered(outcome) ==> x.reply == HttpError(InternalServerError,
      Reason("An unexpected internal error occurred. Reason: " + MessageOf(outcome.body).exc.reason))
    ensures outcome.Other? ==> x.reply == HttpError(InternalServerError,
      Reason("An unexpected internal error occurred. Reason: " + outcome.reason))
    ensures x.reply.HttpError? && x.reply.status == InternalServerError
        <==> !Delivered(outcome) && (outcome.Ok? || outcome.Other?)
    ensures !x.reply.Raised?
  {
    var targetUrl := "http://" + targetHostname;
    Exchange(Get(targetUrl, TraceHeaders.GetTraceHeaders(inbound)),
             Forward(appName, targetHostname, outcome))
  }

  /** `GET /call/{proxy_hostname}/{target_hostname}`: a plain-HTTP GET of the
      proxy's `/call/{target_hostname}` route carrying the filtered trace
      headers. Its errors name the proxy, the host it actually called. */
  function CallProxy(appName: string, proxyHostname: string, targetHostname: string,
                     inbound: seq<TraceHeaders.Header>, outcome: Outcome): (x: Exchange)
    ensures x.sent.url == "http://" + proxyHostname + "/call/" + targetHostname
    ensures x.sent.headers == TraceHeaders.GetTraceHeaders(inbound)
    ensures x.reply.Json? <==> Delivered(outcome)
    ensures x.reply.Json? ==> x.reply.fields == map["message" := appName + " <- " + DeliveredMessage(outcome)]
    ensures outcome.UpstreamStatus? ==> x.reply == HttpError(BadGateway, UpstreamError(
      "Error response received from " + proxyHostname + ".", outcome.code, outcome.text))
    ensures outcome.RequestFailed? ==> x.reply == HttpError(ServiceUnavailable,
      Reason("Failed to call " + proxyHostname + ". Reason: " + outcome.reason))
    ensures outcome.Ok? && !Delivered(outcome) ==> x.reply == HttpError(InternalServerError,
      Reason("An unexpected internal error occurred. Reason: " + MessageOf(outcome.body).exc.reason))
    ensures outcome.Other? ==> x.reply == HttpError(InternalServerError,
      Reason("An unexpected internal error occurred. Reason: " + outcome.reason))
    ensures x.reply.HttpError? && x.reply.status == InternalServerError
        <==> !Delivered(outcome) && (outcome.Ok? || outcome.Other?)
    ensures !x.reply.Raised?
  {
    var proxyUrl := "http://" + proxyHostname + "/call/" + targetHostname;
    Exchange(Get(proxyUrl, TraceHeaders.GetTraceHeaders(inbound)),
             Forward(appName, proxyHostname, outcome))
  }

  /** Both call routes use plain HTTP: the URL reads back as scheme "http",
      the called hostname as the authority, and for the proxy route the path
      `/call/<target>`. */
  lemma CallUrlsReadBack(appName: string, proxyHostname: string, targetHostname: string,
                         inbound: seq<TraceHeaders.Header>, outcome: Outcome)
    requires Url.IsAuthorityText(proxyHostname) && Url.IsAuthorityText(targetHostname)
    ensures Url.Split(CallTarget(appName, targetHostname, inbound, outcome).sent.url)
         == Some(Url.Parts("http", targetHostname, ""))
    ensures Url.Split(CallProxy(appName, proxyHostname, targetHostname, inbound, outcome).sent.url)
         == Some(Url.Parts("http", proxyHostname, "/call/" + targetHostname))
  {
    assert "http" + "://" == "http://";
    Url.SplitJoin("http", targetHostname, "");
    assert "http://" + targetHostname + "" == "http://" + targetHostname;
    Url.SplitJoin("http", proxyHostname, "/call/" + targetHostname);
    assert "http://" + proxyHostname + ("/call/" + targetHostname)
        == "http://" + proxyHostname + "/call/" + targetHostname;
  }

  /** The hostname is a path parameter, which arrives percent-decoded, so
      it may hold a '?': the direct route then calls only the part before
      it, and sends the rest as a query. */
  lemma QueryInHostnameLeavesHost(appName: string, host: string, query: string,
                                  inbound: seq<TraceHeaders.Header>, outcome: Outcome)
    requires Url.IsAuthorityText(host)
    ensures Url.Split(CallTarget(appName, host + "?" + query, inbound, outcome).sent.url)
         == Some(Url.Parts("http", host, "?" + query))
  {
    assert "http" + "://" == "http://";
    Url.SplitJoin("http", host, "?" + query);
    assert "http://" + host + ("?" + query) == "http://" + (host + "?" + query);
  }

  /** The reply of the proxy route does not depend on the target hostname:
      only the proxy is named in its errors. */
  lemma CallProxyReplyIgnoresTarget(appName: string, proxyHostname: string,
                                    target1: string, target2: string,
                                    inbound: seq<TraceHeaders.Header>, outcome: Outcome)
    ensures CallProxy(appName, proxyHostname, target1, inbound, outcome).reply
         == CallProxy(appName, proxyHostname, target2, inbound, outcome).reply
  {
  }

  /** `GET /resolve-ip/{destination_hostname}`: never an HTTP error; always
      echoes the hostname, with status "Success" and the address, or
      "Failed" / "Error" with an error text and the exception's detail. */
  function ResolveIp(destinationHostname: string, lookup: Resolution): (r: Reply)
    ensures r.Json?
    ensures "status" in r.fields && "hostname" in r.fields
    ensures r.fields["hostname"] == destinationHostname
    ensures r.fields["status"] == "Success" <==> lookup.Resolved?
    ensures r.fields["status"] == "Failed" <==> lookup.Gai?
    ensures r.fields["status"] == "Error" <==> lookup.Unexpected?
    ensures "resolved_ip" in r.fields <==> lookup.Resolved?
    ensures lookup.Resolved? ==> r.fields["resolved_ip"] == lookup.ip
    ensures "error" in r.fields <==> !lookup.Resolved?
    ensures "detail" in r.fields <==> !lookup.Resolved?
    ensures !lookup.Resolved? ==> r.fields["detail"] == lookup.err
    ensures lookup.Gai? ==> r.fields["error"] == "Name resolution failed (socket.gaierror)"
    ensures lookup.Unexpected? ==> r.fields["error"] == "An unexpected error occurred"
    ensures r.fields.Keys <= {"status", "hostname", "resolved_ip", "error", "detail"}
  {
    match lookup
    case Resolved(ip) =>
      Json(map["status" := "Success", "hostname" := destinationHostname, "resolved_ip" := ip])
    case Gai(err) =>
      Json(map["status" := "Failed", "hostname" := destinationHostname,
               "error" := "Name resolution failed (socket.gaierror)", "detail" := err])
    case Unexpected(err) =>
      Json(map["status" := "Error", "hostname" := destinationHostname,
               "error" := "An unexpected error occurred", "detail" := err])
  }
}
