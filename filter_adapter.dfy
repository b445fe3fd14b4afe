/**
 * The per-request filter object of the WAF proxy (`HttpFilterAdapterImpl`):
 * the hooks the proxy engine calls as a request is received, resolved,
 * connected and answered. The rewrite filter, the security filter chain and
 * the response filter chain are collaborators whose outcomes are inputs here.
 */
module FilterAdapter {
  import opened Wrappers
  import opened HttpMessages
  import opened ResponseCaches
  import opened Upstreams
  import opened UpstreamKeys
  import opened NettyChannels

  const POST_RESPONSE_CACHE_MAXIMUM_SIZE: nat := 10000

  /** Whether the rewrite filter returned normally or threw. */
  datatype RewriteOutcome = Rewritten | RewriteThrew

  /** The class of the security filter that the chain reports. */
  datatype SecurityFilterKind = CCSecurityFilter | PostSecurityFilter | OtherSecurityFilter

  /** The chain's `(matched, filter)` pair, or the chain threw. */
  datatype ChainOutcome = ChainResult(matched: bool, filter: SecurityFilterKind) | ChainThrew

  /** The address the proxy connected to, or None when the engine has none. */
  datatype RemoteAddress = RemoteAddress(hostAddress: string, port: nat)

  /** The `Origin` header of a request (the first one, if several). */
  function Origin(request: HttpRequest): Option<string> {
    GetAsString(request.headers, "Origin")
  }

  const SYNTHETIC_HEADER_NAMES: set<string> :=
    {"Transfer-Encoding", "Connection", "Access-Control-Allow-Credentials", "Access-Control-Allow-Origin"}

  /** The headers of a synthetic response, given the request's Origin. */
  function ResponseHeaders(origin: Option<string>): seq<Header> {
    [Header("Transfer-Encoding", "chunked"), Header("Connection", "close")]
    + match origin
      case Some(o) => [Header("Access-Control-Allow-Credentials", "true"), Header("Access-Control-Allow-Origin", o)]
      case None => []
  }

  /** A synthetic response carries no header besides the fixed and the CORS ones. */
  lemma ResponseHeaderNames(origin: Option<string>)
    ensures forall h :: h in ResponseHeaders(origin) ==> h.name in SYNTHETIC_HEADER_NAMES
  {
  }

  lemma ResponseHeadersWithOrigin(origin: string)
    ensures var hs := ResponseHeaders(Some(origin));
            && GetAsString(hs, "Transfer-Encoding") == Some("chunked")
            && GetAsString(hs, "Connection") == Some("close")
            && GetAsString(hs, "Access-Control-Allow-Credentials") == Some("true")
            && GetAsString(hs, "Access-Control-Allow-Origin") == Some(origin)
  {
    var hs := ResponseHeaders(Some(origin));
    GetAsStringUnique(hs, "Transfer-Encoding", 0);
    GetAsStringUnique(hs, "Connection", 1);
    GetAsStringUnique(hs, "Access-Control-Allow-Credentials", 2);
    GetAsStringUnique(hs, "Access-Control-Allow-Origin", 3);
  }

  lemma ResponseHeadersWithoutOrigin()
    ensures var hs := ResponseHeaders(None);
            && GetAsString(hs, "Transfer-Encoding") == Some("chunked")
            && GetAsString(hs, "Connection") == Some("close")
            && GetAsString(hs, "Access-Control-Allow-Credentials") == None
            && GetAsString(hs, "Access-Control-Allow-Origin") == None
  {
  }

  /**
   * The synthetic response sent for a verdict or an infrastructure failure:
   * HTTP/1.1 with the given status, chunked and closing the connection, and
   * allowing the request's origin with credentials when it has an `Origin`.
   */
  function CreateResponse(status: HttpResponseStatus, originalRequest: HttpRequest): (r: HttpResponse)
    ensures r.version == HTTP_1_1 && r.status == status
    ensures GetAsString(r.headers, "Transfer-Encoding") == Some("chunked")
    ensures GetAsString(r.headers, "Connection") == Some("close")
    ensures GetAsString(r.headers, "Access-Control-Allow-Origin") == Origin(originalRequest)
    ensures GetAsString(r.headers, "Access-Control-Allow-Credentials")
            == if Origin(originalRequest).Some? then Some("true") else None
    ensures forall h :: h in r.headers ==> h.name in SYNTHETIC_HEADER_NAMES
    ensures |r.headers| == if Origin(originalRequest).Some? then 4 else 2
  {
    ResponseHeaderNames(Origin(originalRequest));
    match Origin(originalRequest)
    case Some(origin) =>
      ResponseHeadersWithOrigin(origin);
      HttpResponse(HTTP_1_1, status, ResponseHeaders(Some(origin)))
    case None =>
      ResponseHeadersWithoutOrigin();
      HttpResponse(HTTP_1_1, status, ResponseHeaders(None))
  }

  /**
   * The status of the request hook's response, by precedence: a failing
   * chain, then a chain match (CC protection answers 503, every other filter
   * 403), then a failed rewrite (502); None forwards the request.
   */
  function VerdictStatus(rewrite: RewriteOutcome, chain: ChainOutcome): (status: Option<HttpResponseStatus>)
    ensures status.Some? ==> status.value in {BAD_GATEWAY, SERVICE_UNAVAILABLE, FORBIDDEN}
    ensures status == Some(SERVICE_UNAVAILABLE) <==> chain == ChainResult(true, CCSecurityFilter)
    ensures status == Some(BAD_GATEWAY) <==> chain.ChainThrew? || (!chain.matched && rewrite == RewriteThrew)
  {
    match chain
    case ChainThrew => Some(BAD_GATEWAY)
    case ChainResult(true, CCSecurityFilter) => Some(SERVICE_UNAVAILABLE)
    case ChainResult(true, _) => Some(FORBIDDEN)
    case ChainResult(false, _) => if rewrite == RewriteThrew then Some(BAD_GATEWAY) else None
  }

  /** Only a match of the body ("post") filter stores its verdict for the response path. */
  predicate CachesVerdict(chain: ChainOutcome) {
    chain == ChainResult(true, PostSecurityFilter)
  }

  /** A request is forwarded exactly when the rewrite succeeded and the chain ran without a match. */
  lemma ForwardedExactlyWhenClean(rewrite: RewriteOutcome, chain: ChainOutcome)
    ensures VerdictStatus(rewrite, chain).None? <==> rewrite == Rewritten && chain.ChainResult? && !chain.matched
  {
  }

  /** A chain match or a chain failure decides the response whatever the rewrite did. */
  lemma ChainOverridesRewrite(chain: ChainOutcome)
    requires chain.ChainThrew? || chain.matched
    ensures VerdictStatus(Rewritten, chain) == VerdictStatus(RewriteThrew, chain) != None
  {
  }

  /** `"on".equals(wafConfs.get("waf.lb"))`: a missing flag reads as null and means off. */
  predicate LoadBalancingOn(wafConfs: map<string, string>) {
    "waf.lb" in wafConfs && wafConfs["waf.lb"] == "on"
  }

  /**
   * The group whose health state a connect failure changes: the group of the
   * upstream's `host_port` key, when load balancing is on and the failed
   * connection has a remote address.
   */
  function FailedGroup(
    wafConfs: map<string, string>,
    upstreamConfig: map<string, WeightedRoundRobinScheduling>,
    serverHostAndPort: string,
    remoteAddress: Option<RemoteAddress>): Option<WeightedRoundRobinScheduling>
  {
    if LoadBalancingOn(wafConfs) && remoteAddress.Some? && GroupKey(serverHostAndPort) in upstreamConfig
    then Some(upstreamConfig[GroupKey(serverHostAndPort)])
    else None
  }

  /** A resolution that yields no address answers 502, but only when the client channel can take a write. */
  predicate MustWriteResolutionFailure(resolved: Option<RemoteAddress>, clientWritable: bool) {
    resolved.None? && clientWritable
  }

  /** The pipeline after connect success: without the "inflater" and "aggregator" handlers. */
  function WithoutDecoders(names: seq<string>): seq<string> {
    RemoveName(RemoveName(names, "inflater"), "aggregator")
  }

  /** Removing the two decoders keeps every other handler, in its original order. */
  lemma WithoutDecodersKeepsOrder(names: seq<string>)
    requires Distinct(names)
    ensures WithoutDecoders(names) == Without(names, {"inflater", "aggregator"})
    ensures "inflater" !in WithoutDecoders(names) && "aggregator" !in WithoutDecoders(names)
  {
    RemoveNameIsWithout(names, "inflater");
    RemoveNameIsWithout(RemoveName(names, "inflater"), "aggregator");
    WithoutTwice(names, {"inflater"}, {"aggregator"});
    assert {"inflater"} + {"aggregator"} == {"inflater", "aggregator"};
  }

  class HttpFilterAdapter {
    /** The request of this exchange; the rewrite filter changes it in place. */
    var originalRequest: HttpRequest
    /** The long text of the client channel's id. */
    const channelId: string
    const postResponseCache: ResponseCache

    /**
     * The cache belongs to this instance and is only ever keyed by its own
     * channel id, so it never holds more than that one entry.
     */
    ghost predicate Valid()
      reads this, postResponseCache
    {
      && postResponseCache.Valid()
      && postResponseCache.maximumSize == POST_RESPONSE_CACHE_MAXIMUM_SIZE
      && postResponseCache.entries.Keys <= {channelId}
    }

    constructor (originalRequest: HttpRequest, channelId: string)
      ensures Valid() && fresh(postResponseCache)
      ensures this.originalRequest == originalRequest && this.channelId == channelId
      ensures postResponseCache.entries == map[]
    {
      this.originalRequest := originalRequest;
      this.channelId := channelId;
      postResponseCache := new ResponseCache(POST_RESPONSE_CACHE_MAXIMUM_SIZE);
    }

    /**
     * The request hook: rewrite, then the security chain. `rewrittenRequest`
     * is the request as the rewrite filter leaves it (also when it throws);
     * every synthetic response, and every later hook, reads its headers.
     * Returns the response to send instead of forwarding, or None to forward.
     */
    method ClientToProxyRequest(rewrite: RewriteOutcome, rewrittenRequest: HttpRequest, chain: ChainOutcome)
      returns (httpResponse: Option<HttpResponse>)
      requires Valid()
      modifies this, postResponseCache
      ensures Valid()
      ensures originalRequest == rewrittenRequest
      ensures httpResponse == match VerdictStatus(rewrite, chain)
                              case Some(status) => Some(CreateResponse(status, originalRequest))
                              case None => None
      ensures CachesVerdict(chain) ==>
                httpResponse.Some? && postResponseCache.entries == old(postResponseCache.entries)[channelId := httpResponse.value]
      ensures !CachesVerdict(chain) ==> postResponseCache.entries == old(postResponseCache.entries)
    {
      httpResponse := None;
      originalRequest := rewrittenRequest;
      if rewrite == RewriteThrew {
        httpResponse := Some(CreateResponse(BAD_GATEWAY, originalRequest));
      }
      match chain {
        case ChainThrew =>
          httpResponse := Some(CreateResponse(BAD_GATEWAY, originalRequest));
        case ChainResult(matched, filter) =>
          if matched {
            if filter == CCSecurityFilter {
              httpResponse := Some(CreateResponse(SERVICE_UNAVAILABLE, originalRequest));
            } else if filter == PostSecurityFilter {
              httpResponse := Some(CreateResponse(FORBIDDEN, originalRequest));
              assert channelId !in postResponseCache.entries ==> postResponseCache.entries == map[];
              postResponseCache.Put(channelId, httpResponse.value);
            } else {
              httpResponse := Some(CreateResponse(FORBIDDEN, originalRequest));
            }
          }
      }
    }

    /**
     * Resolution hook: when no address was resolved and the client channel
     * is writable, the 502 response to write; otherwise nothing is written.
     */
    method ProxyToServerResolutionSucceeded(resolvedRemoteAddress: Option<RemoteAddress>, clientWritable: bool)
      returns (written: Option<HttpResponse>)
      ensures written.Some? <==> MustWriteResolutionFailure(resolvedRemoteAddress, clientWritable)
      ensures written.Some? ==> written.value == CreateResponse(BAD_GATEWAY, originalRequest)
    {
      written := None;
      if resolvedRemoteAddress.None? {
        if clientWritable {
          written := Some(CreateResponse(BAD_GATEWAY, originalRequest));
        }
      }
    }

    /**
     * The listener registered when the request is sent: once the server
     * channel has closed, close the client channel if it is still active.
     */
    method OnServerChannelClosed(client: Channel)
      modifies client
      ensures !client.active
      ensures client.closeRequests == old(client.closeRequests) + if old(client.active) then 1 else 0
    {
      if client.active {
        client.Close();
      }
    }

    /**
     * The response hook. A stored verdict replaces a response and is consumed;
     * otherwise the response filters run (`responseFilters` gives their
     * result, None when they threw, which leaves the response as it was).
     * Objects that are not responses pass through untouched.
     */
    method ProxyToClientResponse(httpObject: HttpObject, responseFilters: HttpResponse -> Option<HttpResponse>)
      returns (result: HttpObject, filtersRan: bool)
      requires Valid()
      modifies postResponseCache
      ensures Valid()
      ensures !httpObject.ResponseObject? ==>
                result == httpObject && !filtersRan && postResponseCache.entries == old(postResponseCache.entries)
      ensures httpObject.ResponseObject? && channelId in old(postResponseCache.entries) ==>
                && result == ResponseObject(old(postResponseCache.entries)[channelId])
                && !filtersRan
                && channelId !in postResponseCache.entries
                && postResponseCache.entries == old(postResponseCache.entries) - {channelId}
      ensures httpObject.ResponseObject? && channelId !in old(postResponseCache.entries) ==>
                && filtersRan
                && postResponseCache.entries == old(postResponseCache.entries)
                && result == match responseFilters(httpObject.response)
                             case Some(filtered) => ResponseObject(filtered)
                             case None => httpObject
    {
      result, filtersRan := httpObject, false;
      if httpObject.ResponseObject? {
        var cached := postResponseCache.GetIfPresent(channelId);
        if cached.Some? {
          result := ResponseObject(cached.value);
          postResponseCache.Invalidate(channelId);
        } else {
          filtersRan := true;
          match responseFilters(httpObject.response) {
            case Some(filtered) => result := ResponseObject(filtered);
            case None =>
          }
        }
      }
    }

    /**
     * Connect-failure hook: with load balancing on, the failed server moves
     * from its group's healthy set to its unhealthy set. A missing address,
     * an unknown group or an unknown server changes nothing.
     */
    method ProxyToServerConnectionFailed(
      wafConfs: map<string, string>,
      upstreamConfig: map<string, WeightedRoundRobinScheduling>,
      serverHostAndPort: string,
      remoteAddress: Option<RemoteAddress>)
      requires forall g :: g in upstreamConfig.Values ==> g.Valid()
      modifies upstreamConfig.Values
      ensures forall g :: g in upstreamConfig.Values ==> g.Valid()
      ensures match FailedGroup(wafConfs, upstreamConfig, serverHostAndPort, remoteAddress)
              case Some(group) =>
                && group.State() == MarkFailed(old(group.State()),
                                               ServerKey(remoteAddress.value.hostAddress, remoteAddress.value.port))
                && forall g :: g in upstreamConfig.Values && g != group ==> unchanged(g)
              case None =>
                forall g :: g in upstreamConfig.Values ==> unchanged(g)
    {
      if LoadBalancingOn(wafConfs) {
        var groupKey := GroupKey(serverHostAndPort);
        match remoteAddress {
          case None =>
          case Some(address) =>
            var serverKey := ServerKey(address.hostAddress, address.port);
            if groupKey in upstreamConfig {
              var group := upstreamConfig[groupKey];
              if serverKey in group.serversMap {
                var server := group.serversMap[serverKey];
                group.unhealthilyServerConfigs := group.unhealthilyServerConfigs + {server};
                group.healthilyServerConfigs := group.healthilyServerConfigs - {server};
                MarkFailedKeepsPartition(old(group.State()), serverKey);
              }
            }
        }
      }
    }

    /**
     * Connect-success hook: drop the decompressing and aggregating handlers
     * from the server channel's pipeline when they are present.
     */
    method ProxyToServerConnectionSucceeded(pipeline: ChannelPipeline)
      requires pipeline.Valid()
      modifies pipeline
      ensures pipeline.Valid()
      ensures pipeline.names == WithoutDecoders(old(pipeline.names))
      ensures "inflater" !in pipeline.names && "aggregator" !in pipeline.names
    {
      if pipeline.Get("inflater").Some? {
        pipeline.Remove("inflater");
      } else {
        RemoveNameAbsent(pipeline.names, "inflater");
      }
      if pipeline.Get("aggregator").Some? {
        pipeline.Remove("aggregator");
      } else {
        RemoveNameAbsent(pipeline.names, "aggregator");
      }
    }
  }

  /**
   * A body-policy verdict is stored, replayed by the first response hook in
   * place of the upstream's response, and not replayed again: the second
   * response hook runs the response filters on the upstream's response. The
   * verdict carries the CORS headers of the request as rewritten.
   */
  method DeferredVerdictReplayedOnce(
    request: HttpRequest, rewritten: HttpRequest, channelId: string, upstream: HttpResponse,
    responseFilters: HttpResponse -> Option<HttpResponse>)
    returns (verdict: Option<HttpResponse>, first: HttpObject, second: HttpObject)
    ensures verdict == Some(CreateResponse(FORBIDDEN, rewritten))
    ensures first == ResponseObject(CreateResponse(FORBIDDEN, rewritten))
    ensures second == match responseFilters(upstream)
                      case Some(filtered) => ResponseObject(filtered)
                      case None => ResponseObject(upstream)
  {
    var adapter := new HttpFilterAdapter(request, channelId);
    verdict := adapter.ClientToProxyRequest(Rewritten, rewritten, ChainResult(true, PostSecurityFilter));
    var ran;
    first, ran := adapter.ProxyToClientResponse(ResponseObject(upstream), responseFilters);
    second, ran := adapter.ProxyToClientResponse(ResponseObject(upstream), responseFilters);
  }

  /**
   * A request with an Origin that a generic rule blocks gets a 403 that
   * closes the connection and allows that origin.
   */
  lemma GenericBlockKeepsOrigin(request: HttpRequest, origin: string)
    requires Origin(request) == Some(origin)
    ensures var r := CreateResponse(VerdictStatus(Rewritten, ChainResult(true, OtherSecurityFilter)).value, request);
            && r.status.code == 403
            && GetAsString(r.headers, "Access-Control-Allow-Origin") == Some(origin)
            && GetAsString(r.headers, "Connection") == Some("close")
  {
  }
}
