# WAF filter adapter — a Dafny model

This project models `HttpFilterAdapterImpl`, the per-request hook object of a
web-application-firewall reverse proxy. The proxy engine creates one instance
for each request, with the original request and the client channel. It then
calls the instance's hooks as the request is received, resolved and connected,
and as the response is sent back:

- **Request hook** (`ClientToProxyRequest`). It runs the rewrite filter, then the
  security filter chain, and maps the outcome to a synthetic response or to
  "forward". A CC (rate-limit) match answers 503, any other match answers 403,
  and a failure of the chain answers 502. A rewrite failure answers 502 only
  when the chain then neither matches nor fails. A match of the body ("post")
  filter also stores its 403 in the instance's verdict cache.
- **Synthetic responses** (`CreateResponse`). Each is an HTTP/1.1 response with
  `Transfer-Encoding: chunked` and `Connection: close`. When the request has an
  `Origin` header, it also carries `Access-Control-Allow-Credentials: true` and
  `Access-Control-Allow-Origin: <origin>`.
- **Response hook** (`ProxyToClientResponse`). A cached verdict replaces the
  outgoing response and is removed, so it is replayed at most once. Otherwise
  the response filters run. Anything that is not a response passes through.
- **Connection hooks.**
  - When a connection to the server fails and load balancing is on, the
    failed server moves from its group's healthy set to the unhealthy set.
  - When the server channel closes, the client channel is closed if it is
    still active.
  - A resolution that yields no address writes a 502 only when the client
    channel is writable.
  - After a connection succeeds, the `inflater` and `aggregator` handlers
    are removed from the server pipeline.

Modules:

- `Wrappers` holds `Option`.
- `HttpMessages` holds headers, requests, responses, and the case-insensitive
  header lookup.
- `ResponseCaches` is the bounded verdict cache.
- `Upstreams` is the health state of one upstream group.
- `UpstreamKeys` builds the `host_port` group key and the `ip_port` server key.
- `NettyChannels` holds the channel and the handler pipeline.
- `FilterAdapter` is the adapter itself.

The verdict cache is a field of each instance, and the instance only ever
keys it by its own channel id. So besides the 10000-entry bound,
`HttpFilterAdapter.Valid` records that it holds at most that one key.

A rewrite failure is not answered at once. The code still runs the security
chain afterwards, and a chain match or a chain failure replaces the 502
(`HttpFilterAdapterImpl.java:48-66`). The model follows the code here.

## Model

| member | source | states |
|---|---|---|
| `FilterAdapter.CreateResponse` | src/main/java/info/yangguo/waf/HttpFilterAdapterImpl.java:164-179 | HTTP/1.1, the given status, `Transfer-Encoding: chunked`, `Connection: close`; the two CORS headers are present exactly when the request has an Origin, and Allow-Origin equals it; exactly two headers without an Origin and four with one, and no other header names |
| `HttpMessages.GetAsString` | src/main/java/info/yangguo/waf/HttpFilterAdapterImpl.java:172 | the header lookup yields None exactly when no header has the name (ignoring case), else the value of the first one that has it |
| `FilterAdapter.HttpFilterAdapter.ClientToProxyRequest` | src/main/java/info/yangguo/waf/HttpFilterAdapterImpl.java:45-70 | the hook, written step by step as the source reassigns its result, leaves the request as the rewrite changed it and returns the response of the precedence table built from that request (chain failure 502, CC match 503, other match 403, else rewrite failure 502, else forward); only a post-filter match stores that response under the channel id, every other path leaves the cache as it was; the cache stays within its bound |
| `FilterAdapter.VerdictStatus` | src/main/java/info/yangguo/waf/HttpFilterAdapterImpl.java:46-69 | the precedence table: only 502, 503 or 403 are ever answered; 503 exactly for a CC match; 502 exactly when the chain threw, or it did not match and the rewrite threw |
| `FilterAdapter.ForwardedExactlyWhenClean` | src/main/java/info/yangguo/waf/HttpFilterAdapterImpl.java:46-69 | a request is forwarded if and only if the rewrite succeeded and the chain ran without a match |
| `FilterAdapter.ChainOverridesRewrite` | src/main/java/info/yangguo/waf/HttpFilterAdapterImpl.java:48-66 | when the chain matches or fails, the outcome does not depend on whether the rewrite failed, and a response is always sent |
| `FilterAdapter.GenericBlockKeepsOrigin` | src/main/java/info/yangguo/waf/HttpFilterAdapterImpl.java:61-62 | a request with an Origin blocked by a generic filter gets a 403 allowing that origin and closing the connection |
| `FilterAdapter.HttpFilterAdapter.constructor` | src/main/java/info/yangguo/waf/HttpFilterAdapterImpl.java:38-42 | each instance gets its own empty cache bounded at 10000 entries |
| `FilterAdapter.HttpFilterAdapter.ProxyToClientResponse` | src/main/java/info/yangguo/waf/HttpFilterAdapterImpl.java:114-128 | a non-response object is returned unchanged and the cache untouched; a response with a cached verdict is replaced by it, the entry is gone afterwards and the response filters do not run; otherwise the filters run and the cache is untouched |
| `FilterAdapter.DeferredVerdictReplayedOnce` | src/main/java/info/yangguo/waf/HttpFilterAdapterImpl.java:58-121 | after a post-filter match, the request hook and the first response hook return the 403 built from the rewritten request in place of the upstream response, and the second response hook returns the upstream response passed through the response filters |
| `FilterAdapter.HttpFilterAdapter.ProxyToServerResolutionSucceeded` | src/main/java/info/yangguo/waf/HttpFilterAdapterImpl.java:73-81 | a 502 is written if and only if no address was resolved and the client channel is writable, and it is the standard synthetic 502 |
| `FilterAdapter.HttpFilterAdapter.OnServerChannelClosed` | src/main/java/info/yangguo/waf/HttpFilterAdapterImpl.java:100-110 | afterwards the client channel is closed, and it was asked to close once if it was active and not at all otherwise |
| `NettyChannels.Channel.Close` | src/main/java/info/yangguo/waf/HttpFilterAdapterImpl.java:105 | the channel is inactive afterwards and one more close was requested |
| `FilterAdapter.HttpFilterAdapter.ProxyToServerConnectionFailed` | src/main/java/info/yangguo/waf/HttpFilterAdapterImpl.java:131-149 | with `waf.lb` = `on`, a remote address and a known group, that group's state becomes the failed-server transition for the `ip_port` key, and every other group is unchanged; otherwise no group changes; every group keeps its healthy/unhealthy partition; the flag must be exactly `on`, and a missing `waf.lb` entry or any other value changes no group |
| `Upstreams.MarkFailed` | src/main/java/info/yangguo/waf/HttpFilterAdapterImpl.java:143-144 | the server map is kept; a configured server is in the unhealthy set and not in the healthy set afterwards; a server key that is not configured changes nothing |
| `Upstreams.MarkFailedFramesOthers` | src/main/java/info/yangguo/waf/HttpFilterAdapterImpl.java:143-144 | every other server keeps its membership in both sets |
| `Upstreams.MarkFailedIdempotent` | src/main/java/info/yangguo/waf/HttpFilterAdapterImpl.java:143-144 | repeating the failure report changes nothing further |
| `Upstreams.MarkFailedKeepsPartition` | src/main/java/info/yangguo/waf/HttpFilterAdapterImpl.java:143-144 | a group whose servers are each in exactly one set stays that way |
| `UpstreamKeys.ReplaceColons` | src/main/java/info/yangguo/waf/HttpFilterAdapterImpl.java:137 | the group key has the length of `host:port`, no colon, an underscore where each colon was and every other character kept |
| `UpstreamKeys.GroupKey` | src/main/java/info/yangguo/waf/HttpFilterAdapterImpl.java:137 | the group key of `host:port` has its length, no colon, and an underscore exactly where each colon was |
| `UpstreamKeys.DecimalString` | src/main/java/info/yangguo/waf/HttpFilterAdapterImpl.java:140-143 | the port's text is a non-empty string of digits, with a leading zero only for port 0 |
| `UpstreamKeys.DecimalRoundTrip` | src/main/java/info/yangguo/waf/HttpFilterAdapterImpl.java:140-143 | reading the port's text back gives the port |
| `UpstreamKeys.ServerKey` | src/main/java/info/yangguo/waf/HttpFilterAdapterImpl.java:139-143 | the server key starts with the address, then an underscore, then digits that read back as the port |
| `UpstreamKeys.ServerKeyInjective` | src/main/java/info/yangguo/waf/HttpFilterAdapterImpl.java:139-143 | two servers whose addresses hold no underscore have the same `ip_port` key only if address and port are equal |
| `UpstreamKeys.GroupKeyOfAddress` | src/main/java/info/yangguo/waf/HttpFilterAdapterImpl.java:137-143 | for an upstream configured by an IPv4 address (one without a colon), its group key and its server key are the same string |
| `ResponseCaches.ResponseCache.Put` | src/main/java/info/yangguo/waf/HttpFilterAdapterImpl.java:60 | the key maps to the value afterwards, no other key is added or changed, the size stays within the maximum, and nothing is evicted while there is room |
| `ResponseCaches.ResponseCache.GetIfPresent` | src/main/java/info/yangguo/waf/HttpFilterAdapterImpl.java:117-118 | yields the cached response exactly when the key is present |
| `ResponseCaches.ResponseCache.Invalidate` | src/main/java/info/yangguo/waf/HttpFilterAdapterImpl.java:119 | the key is removed and nothing else changes |
| `FilterAdapter.HttpFilterAdapter.ProxyToServerConnectionSucceeded` | src/main/java/info/yangguo/waf/HttpFilterAdapterImpl.java:152-162 | afterwards the pipeline holds neither `inflater` nor `aggregator`, and it is the old pipeline with those two removed |
| `FilterAdapter.WithoutDecodersKeepsOrder` | src/main/java/info/yangguo/waf/HttpFilterAdapterImpl.java:155-160 | the resulting pipeline is the old one with exactly those two names filtered out, every other handler in its original order |
| `NettyChannels.ChannelPipeline.Get` | src/main/java/info/yangguo/waf/HttpFilterAdapterImpl.java:155-158 | finds a handler exactly when one has that name, and its position |
| `NettyChannels.ChannelPipeline.Remove` | src/main/java/info/yangguo/waf/HttpFilterAdapterImpl.java:156-159 | the pipeline loses the named handler and keeps unique names |
| `NettyChannels.RemoveName` | src/main/java/info/yangguo/waf/HttpFilterAdapterImpl.java:156-159 | removing a present name shortens the pipeline by one; in a pipeline of unique names the name is gone afterwards and every other name stays |
| `NettyChannels.RemoveNameAt` | src/main/java/info/yangguo/waf/HttpFilterAdapterImpl.java:156-159 | removal cuts out exactly the handler at the name's first position and keeps everything before and after it in place |
| `NettyChannels.RemoveNameAbsent` | src/main/java/info/yangguo/waf/HttpFilterAdapterImpl.java:155-160 | when the handler is absent, the pipeline stays as it was |
| `NettyChannels.RemoveNameIsWithout` | src/main/java/info/yangguo/waf/HttpFilterAdapterImpl.java:155-160 | in a pipeline of unique names, removing a name is the same as filtering it out in order |

## Left out

- The proxy engine's machinery is not modelled: channel contexts, close futures, `writeAndFlush` and writability. The channel id, the client channel's writability, the resolved address and the server pipeline are inputs, and each hook's effect is its result or its new state. A channel's activity is a field that `Channel.Close` clears at once; Netty's asynchronous close, where the channel can still report itself active after `close()` returns, is not modelled, and neither is the timing of the close listener.
- The rewrite filter, the security filter chain and the response filter chain are not part of this model; their outcomes are inputs. For the rewrite this is whether it threw and the request as it left it, which then replaces the adapter's request. The response filters are a function from the response to the filtered response, or to None when they throw. In that case the hook returns the response unchanged; what a filter changed before throwing is not modelled.
- `WeightedRoundRobinScheduling` is modelled only as far as the hook uses it: the servers by key and the healthy and unhealthy sets. Weighted selection, recovery of a server, and the scheduling cursor are not part of this model.
- The cluster service and the global configuration map are not part of this model. The upstream configuration and the configuration map are parameters.
- Upstreams.MarkFailed: when the `ip_port` key is not configured, the source adds and removes `null` in the two sets; whether that set accepts `null` is not visible, so the model leaves both sets unchanged.
- ResponseCaches.ResponseCache.Put: the cache evicts one arbitrary entry only when it is full. The real cache may evict earlier, by its own recently-used policy.
- NettyChannels.ChannelPipeline.Remove: the pipeline throws on a name it does not hold, and the model requires the name to be present instead. The hook always checks with `Get` first.
- Logging, the extraction of exception causes, and the atomicity of the two-step set move under concurrent scheduling are not modelled. HTTP parsing and TLS are not modelled either.
- The HTTP status and version are modelled as values (code and reason phrase; the text `HTTP/1.1`). Header-name case is folded over ASCII only.
