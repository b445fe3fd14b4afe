/**
 * Health state of one upstream group (a `WeightedRoundRobinScheduling`): the
 * configured servers by server key, and the healthy and unhealthy sets that
 * the weighted selection draws from. Every configured server is in exactly
 * one of the two sets. The selection algorithm itself is not part of this
 * model.
 */
module Upstreams {

  datatype ServerConfig = ServerConfig(ip: string, port: nat, weight: nat)

  datatype HealthState = HealthState(
    serversMap: map<string, ServerConfig>,
    healthy: set<ServerConfig>,
    unhealthy: set<ServerConfig>)

  /** Never both healthy and unhealthy, never neither. */
  predicate Partitioned(st: HealthState) {
    st.healthy !! st.unhealthy && st.healthy + st.unhealthy == st.serversMap.Values
  }

  /**
   * The effect of a connection failure to the server with key `serverKey`:
   * it joins the unhealthy set and leaves the healthy set. An unknown key
   * changes nothing.
   */
  function MarkFailed(st: HealthState, serverKey: string): (r: HealthState)
    ensures r.serversMap == st.serversMap
    ensures serverKey in st.serversMap ==>
              st.serversMap[serverKey] in r.unhealthy && st.serversMap[serverKey] !in r.healthy
    ensures serverKey !in st.serversMap ==> r == st
  {
    if serverKey in st.serversMap then
      var server := st.serversMap[serverKey];
      st.(unhealthy := st.unhealthy + {server}, healthy := st.healthy - {server})
    else st
  }

  /** Every other server keeps its health state. */
  lemma MarkFailedFramesOthers(st: HealthState, serverKey: string, other: ServerConfig)
    requires serverKey !in st.serversMap || other != st.serversMap[serverKey]
    ensures other in MarkFailed(st, serverKey).healthy <==> other in st.healthy
    ensures other in MarkFailed(st, serverKey).unhealthy <==> other in st.unhealthy
  {
  }

  /** Reporting the same failure twice changes nothing further. */
  lemma MarkFailedIdempotent(st: HealthState, serverKey: string)
    ensures MarkFailed(MarkFailed(st, serverKey), serverKey) == MarkFailed(st, serverKey)
  {
  }

  lemma MarkFailedKeepsPartition(st: HealthState, serverKey: string)
    requires Partitioned(st)
    ensures Partitioned(MarkFailed(st, serverKey))
  {
  }

  class WeightedRoundRobinScheduling {
    var serversMap: map<string, ServerConfig>
    var healthilyServerConfigs: set<ServerConfig>
    var unhealthilyServerConfigs: set<ServerConfig>

    function State(): HealthState
      reads this
    {
      HealthState(serversMap, healthilyServerConfigs, unhealthilyServerConfigs)
    }

    ghost predicate Valid()
      reads this
    {
      Partitioned(State())
    }

    /** A group starts with every configured server healthy. */
    constructor (serversMap: map<string, ServerConfig>)
      ensures Valid()
      ensures State() == HealthState(serversMap, serversMap.Values, {})
    {
      this.serversMap := serversMap;
      healthilyServerConfigs := serversMap.Values;
      unhealthilyServerConfigs := {};
    }
  }
}
