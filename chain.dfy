/** The services composed as they are deployed: the client calls the
    proxy's `/call/{target_hostname}` route, which calls the target's `/`
    route. */
module Chain {
  import opened Http
  import TraceHeaders
  import ClientService
  import ProxyService
  import ClientWithoutMeshService

  /** The name the target service answers with when none is configured. */
  const TargetDefaultAppName := "TARGET"

  /** What the calling service's HTTP client makes of a reply: a JSON object
      arrives as a 2xx body; an HTTPException, and an exception that escaped
      (which the framework answers with 500), arrive as an error status that
      `raise_for_status` rejects, with the serialised body `errorBody`. */
  function Received(reply: Reply, errorBody: string): Outcome {
    match reply
    case Json(fields) => Ok(JsonObject(map name | name in fields :: JString(fields[name])))
    case HttpError(status, _) => UpstreamStatus(status, errorBody)
    case Raised(_) => UpstreamStatus(InternalServerError, errorBody)
  }

  /** A successful two-hop call concatenates the three service names,
      caller first. */
  lemma ThreeHopMessage(clientName: string, proxyName: string, targetName: string,
                        proxyHostname: string, targetHostname: string,
                        inbound: seq<TraceHeaders.Header>, atProxy: seq<TraceHeaders.Header>,
                        errorBody: string)
    ensures
      var atTarget := ProxyService.CallTarget(proxyName, targetHostname, atProxy,
                                              Received(Greeting(targetName), errorBody));
      var atClient := ClientService.CallProxy(clientName, proxyHostname, targetHostname, inbound,
                                              Received(atTarget.reply, errorBody));
      atClient.reply == Json(map["message" := clientName + " <- " + proxyName + " <- " + targetName])
  {
    var toProxy := Received(Greeting(targetName), errorBody);
    assert MessageOf(toProxy.body) == Success(targetName);
    var atTarget := ProxyService.CallTarget(proxyName, targetHostname, atProxy, toProxy);
    var proxyMessage := proxyName + " <- " + targetName;
    assert atTarget.reply == Json(map["message" := proxyMessage]);
    var toClient := Received(atTarget.reply, errorBody);
    assert MessageOf(toClient.body) == Success(proxyMessage);
    assert clientName + " <- " + proxyMessage == clientName + " <- " + proxyName + " <- " + targetName;
  }

  /** With every service under its default name, a successful two-hop call
      answers "CLIENT <- PROXY <- TARGET". */
  lemma DefaultNamesThreeHop(proxyHostname: string, targetHostname: string,
                             inbound: seq<TraceHeaders.Header>, atProxy: seq<TraceHeaders.Header>,
                             errorBody: string)
    ensures
      var atTarget := ProxyService.CallTarget(ProxyService.DefaultAppName, targetHostname, atProxy,
                                              Received(Greeting(TargetDefaultAppName), errorBody));
      var atClient := ClientService.CallProxy(ClientService.DefaultAppName, proxyHostname, targetHostname,
                                              inbound, Received(atTarget.reply, errorBody));
      atClient.reply == Json(map["message" := "CLIENT <- PROXY <- TARGET"])
  {
    ThreeHopMessage(ClientService.DefaultAppName, ProxyService.DefaultAppName, TargetDefaultAppName,
                    proxyHostname, targetHostname, inbound, atProxy, errorBody);
    assert ClientService.DefaultAppName + " <- " + ProxyService.DefaultAppName + " <- " + TargetDefaultAppName
        == "CLIENT <- PROXY <- TARGET";
  }

  /** With both services under their default names, the client deployed
      outside the mesh calling the target directly, bare or with a token,
      answers "CLIENT <- TARGET". */
  lemma DefaultNamesDirectCall(targetHostname: string, idToken: string, errorBody: string)
    ensures
      var outcome := Received(Greeting(TargetDefaultAppName), errorBody);
      var reply := Json(map["message" := "CLIENT <- TARGET"]);
      && ClientWithoutMeshService.CallTarget(ClientWithoutMeshService.DefaultAppName,
                                             targetHostname, outcome).reply == reply
      && ClientWithoutMeshService.CallTargetAuthheader(ClientWithoutMeshService.DefaultAppName, targetHostname,
                                                       ClientWithoutMeshService.Fetched(idToken), outcome).reply == reply
  {
    var outcome := Received(Greeting(TargetDefaultAppName), errorBody);
    assert MessageOf(outcome.body) == Success(TargetDefaultAppName);
    assert ClientWithoutMeshService.DefaultAppName + " <- " + TargetDefaultAppName == "CLIENT <- TARGET";
  }

  /** The trace headers the client sends reach the target unchanged: if the
      allow-listed headers the proxy receives are exactly the ones the client
      sent, in any order and among any other headers, it forwards the same
      mapping. */
  lemma TraceHeadersSurviveHop(clientName: string, proxyName: string,
                               proxyHostname: string, targetHostname: string,
                               inbound: seq<TraceHeaders.Header>, clientOutcome: Outcome,
                               atProxy: seq<TraceHeaders.Header>, proxyOutcome: Outcome)
    requires TraceHeaders.Enumerates(TraceHeaders.TraceOnly(atProxy),
      ClientService.CallProxy(clientName, proxyHostname, targetHostname, inbound, clientOutcome).sent.headers)
    ensures ProxyService.CallTarget(proxyName, targetHostname, atProxy, proxyOutcome).sent.headers
         == ClientService.CallProxy(clientName, proxyHostname, targetHostname, inbound, clientOutcome).sent.headers
         == TraceHeaders.GetTraceHeaders(inbound)
  {
    TraceHeaders.DependsOnlyOnTraceHeaders(atProxy);
    TraceHeaders.Idempotent(inbound, TraceHeaders.TraceOnly(atProxy));
  }

  /** Whatever stops the proxy from delivering a message reaches the client
      as a 502 that names the proxy and carries the proxy's own status. */
  lemma ProxyFailureIsBadGateway(clientName: string, proxyName: string,
                                 proxyHostname: string, targetHostname: string,
                                 inbound: seq<TraceHeaders.Header>, atProxy: seq<TraceHeaders.Header>,
                                 proxyOutcome: Outcome, errorBody: string)
    requires !Delivered(proxyOutcome)
    ensures
      var atTarget := ProxyService.CallTarget(proxyName, targetHostname, atProxy, proxyOutcome);
      var atClient := ClientService.CallProxy(clientName, proxyHostname, targetHostname, inbound,
                                              Received(atTarget.reply, errorBody));
      && atTarget.reply.HttpError?
      && atTarget.reply.status in {BadGateway, ServiceUnavailable, InternalServerError}
      && atClient.reply == HttpError(BadGateway, UpstreamError(
           "Error response received from " + proxyHostname + ".", atTarget.reply.status, errorBody))
  {
  }
}
