/** The two in-flight gauges every request pipeline keeps: one for all
    requests, tagged with the overall per-source tags, and one per route,
    tagged with the route's controller and action. */
module Inflight {
  import opened Wrappers
  import opened Constants
  import opened Application
  import opened GaugeOptions
  import opened Telemetry

  const TotalInflightName := "total_requests.inflight"
  const InflightSuffix := ".inflight"

  /** The total in-flight gauge. */
  function TotalInflightGauge(app: ApplicationTags): GaugeKey {
    GaugeKey(Some(AspNetCoreContext), TotalInflightName, TierTagsFor(app, None, None).perSource)
  }

  /** The in-flight gauge of one route, named after its request metric. */
  function RouteInflightGauge(app: ApplicationTags, requestName: string, controllerName: string, actionName: string): GaugeKey {
    GaugeKey(Some(AspNetCoreContext), requestName + InflightSuffix,
             GetTags(app, true, true, true, Some(controllerName), Some(actionName), None))
  }

  /** A route gauge is never the total gauge: request names start with
      "request.", the total's name with "total_". */
  lemma TotalIsNotRoute(app: ApplicationTags, requestName: string, controllerName: string, actionName: string)
    requires requestName != [] && requestName[0] == 'r'
    ensures RouteInflightGauge(app, requestName, controllerName, actionName) != TotalInflightGauge(app)
  {
    assert (requestName + InflightSuffix)[0] == 'r';
  }
}
