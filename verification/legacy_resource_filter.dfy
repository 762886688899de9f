/** The older MVC resource filter. Its tag sets start from the
    application's custom tags and always carry "application" and "source";
    it keeps the in-flight gauges unconditionally, counts errors without a
    per-route counter, and always records the latency histogram, reading
    the start time with the items indexer. */
module LegacyFilter {
  import opened Wrappers
  import opened Constants
  import opened Application
  import opened GaugeOptions
  import opened Gauges
  import opened Telemetry
  import opened Http
  import opened Inflight
  import LegacyMetricNames

  const StartTimeMillisKey := "startTimeMillis"
  /** `Dictionary.Add` of a key that is already present. */
  const DuplicateKey := "ArgumentException"
  /** Copying a null custom-tag dictionary. */
  const NullCustomTags := "ArgumentNullException"
  const KeyNotFound := "KeyNotFoundException"
  const InvalidCast := "InvalidCastException"
  /** Unboxing the null that `HttpContext.Items` returns for a missing key. */
  const NullReference := "NullReferenceException"

  datatype ControllerAction = ControllerAction(controllerName: string, actionName: string, routeTemplate: Option<string>)

  // ---------------------------------------------------------------------
  // Tag sets.

  /** One `Dictionary.Add`, which throws on a key already present. */
  function AddTag(t: Result<Tags, string>, key: string, value: string): (r: Result<Tags, string>)
    ensures r.Success? <==> t.Success? && key !in t.value
    ensures r.Success? ==> r.value == t.value[key := value]
  {
    match t
    case Failure(e) => t
    case Success(m) => if key in m then Failure(DuplicateKey) else Success(m[key := value])
  }

  /** `GetTags`: a copy of the custom tags, then "application" and the
      flagged tier keys, then the names, then "source" (the given one, else
      the configured one). */
  function LegacyGetTags(app: ApplicationTags, configuredSource: string,
                         includeCluster: bool, includeService: bool, includeShard: bool,
                         controllerName: Option<string>, actionName: Option<string>, source: Option<string>)
    : Result<Tags, string>
  {
    match app.customTags
    case None => Failure(NullCustomTags)
    case Some(custom) =>
      var t3 := TierKeyTags(app, custom, includeCluster, includeService, includeShard);
      var t4 := if controllerName.Some? then AddTag(t3, ControllerTagKey, controllerName.value) else t3;
      var t5 := if actionName.Some? then AddTag(t4, ActionTagKey, actionName.value) else t4;
      AddTag(t5, SourceTagKey, source.GetOr(configuredSource))
  }

  /** The first part of `GetTags`: the custom tags, "application", and the
      cluster, service and shard keys as flagged. */
  function TierKeyTags(app: ApplicationTags, custom: Tags,
                       includeCluster: bool, includeService: bool, includeShard: bool): Result<Tags, string>
  {
    var t0 := AddTag(Success(custom), ApplicationTagKey, app.application);
    var t1 := if includeCluster then AddTag(t0, ClusterTagKey, app.cluster.GetOr(NullTagValue)) else t0;
    var t2 := if includeService then AddTag(t1, ServiceTagKey, app.service) else t1;
    if includeShard then AddTag(t2, ShardTagKey, app.shard.GetOr(NullTagValue)) else t2
  }

  function TierKeys(includeCluster: bool, includeService: bool, includeShard: bool): set<string> {
    {ApplicationTagKey}
    + (if includeCluster then {ClusterTagKey} else {})
    + (if includeService then {ServiceTagKey} else {})
    + (if includeShard then {ShardTagKey} else {})
  }

  /** The keys `GetTags` adds to the custom tags. */
  function AddedKeys(includeCluster: bool, includeService: bool, includeShard: bool,
                     controllerName: Option<string>, actionName: Option<string>): set<string> {
    TierKeys(includeCluster, includeService, includeShard)
    + (if controllerName.Some? then {ControllerTagKey} else {})
    + (if actionName.Some? then {ActionTagKey} else {})
    + {SourceTagKey}
  }

  /** One step of `GetTags`, which adds `key` when `b` holds: with `added`
      the keys added so far (none of them `key`), success still means the
      custom tags avoid every added key, and earlier entries are kept. */
  lemma CondStep(t: Result<Tags, string>, b: bool, key: string, value: string, custom: Tags, added: set<string>)
    requires key !in added
    requires t.Success? <==> custom.Keys !! added
    requires t.Success? ==> t.value.Keys == custom.Keys + added && (forall k :: k in custom ==> t.value[k] == custom[k])
    ensures var t' := if b then AddTag(t, key, value) else t;
            var added' := if b then added + {key} else added;
            && (t'.Success? <==> custom.Keys !! added')
            && (t'.Success? ==>
                  && t'.value.Keys == custom.Keys + added'
                  && (forall k :: k in custom ==> t'.value[k] == custom[k])
                  && (forall k :: k in added ==> t'.value[k] == t.value[k])
                  && (b ==> t'.value[key] == value))
  {
  }

  /** `GetTags` succeeds exactly when there are custom tags and none of them
      uses a key it adds; the tag set then holds every custom tag and the
      added keys, and nothing else. */
  lemma {:induction false} LegacyGetTagsIff(app: ApplicationTags, configuredSource: string,
                                            includeCluster: bool, includeService: bool, includeShard: bool,
                                            controllerName: Option<string>, actionName: Option<string>,
                                            source: Option<string>)
    ensures var r := LegacyGetTags(app, configuredSource, includeCluster, includeService, includeShard,
                                   controllerName, actionName, source);
            var added := AddedKeys(includeCluster, includeService, includeShard, controllerName, actionName);
            && (app.customTags.None? ==> r == Failure(NullCustomTags))
            && (r.Success? <==> app.customTags.Some? && app.customTags.value.Keys !! added)
            && (r.Success? ==>
                  && r.value.Keys == app.customTags.value.Keys + added
                  && (forall k :: k in app.customTags.value ==> r.value[k] == app.customTags.value[k]))
  {
    if app.customTags.Some? {
      LegacyGetTagsSteps(app, configuredSource, includeCluster, includeService, includeShard,
                         controllerName, actionName, source);
    }
  }

  /** The values `GetTags` gives the keys it adds. */
  lemma {:induction false} LegacyGetTagsValues(app: ApplicationTags, configuredSource: string,
                                               includeCluster: bool, includeService: bool, includeShard: bool,
                                               controllerName: Option<string>, actionName: Option<string>,
                                               source: Option<string>)
    requires LegacyGetTags(app, configuredSource, includeCluster, includeService, includeShard,
                           controllerName, actionName, source).Success?
    ensures var r := LegacyGetTags(app, configuredSource, includeCluster, includeService, includeShard,
                                   controllerName, actionName, source).value;
            && r[ApplicationTagKey] == app.application
            && r[SourceTagKey] == source.GetOr(configuredSource)
            && (includeCluster ==> r[ClusterTagKey] == app.cluster.GetOr(NullTagValue))
            && (includeService ==> r[ServiceTagKey] == app.service)
            && (includeShard ==> r[ShardTagKey] == app.shard.GetOr(NullTagValue))
            && (controllerName.Some? ==> r[ControllerTagKey] == controllerName.value)
            && (actionName.Some? ==> r[ActionTagKey] == actionName.value)
  {
    LegacyGetTagsSteps(app, configuredSource, includeCluster, includeService, includeShard,
                       controllerName, actionName, source);
  }

  /** The first part of `GetTags`, walked one `Add` at a time. */
  lemma {:induction false} TierKeySteps(app: ApplicationTags, custom: Tags,
                                        includeCluster: bool, includeService: bool, includeShard: bool)
    ensures var t := TierKeyTags(app, custom, includeCluster, includeService, includeShard);
            var added := TierKeys(includeCluster, includeService, includeShard);
            && (t.Success? <==> custom.Keys !! added)
            && (t.Success? ==>
                  && t.value.Keys == custom.Keys + added
                  && (forall k :: k in custom ==> t.value[k] == custom[k])
                  && t.value[ApplicationTagKey] == app.application
                  && (includeCluster ==> t.value[ClusterTagKey] == app.cluster.GetOr(NullTagValue))
                  && (includeService ==> t.value[ServiceTagKey] == app.service)
                  && (includeShard ==> t.value[ShardTagKey] == app.shard.GetOr(NullTagValue)))
  {
    var a0: set<string> := {};
    var t0 := AddTag(Success(custom), ApplicationTagKey, app.application);
    CondStep(Success(custom), true, ApplicationTagKey, app.application, custom, a0);
    var a1 := a0 + {ApplicationTagKey};
    var t1 := if includeCluster then AddTag(t0, ClusterTagKey, app.cluster.GetOr(NullTagValue)) else t0;
    CondStep(t0, includeCluster, ClusterTagKey, app.cluster.GetOr(NullTagValue), custom, a1);
    var a2 := if includeCluster then a1 + {ClusterTagKey} else a1;
    var t2 := if includeService then AddTag(t1, ServiceTagKey, app.service) else t1;
    CondStep(t1, includeService, ServiceTagKey, app.service, custom, a2);
    var a3 := if includeService then a2 + {ServiceTagKey} else a2;
    CondStep(t2, includeShard, ShardTagKey, app.shard.GetOr(NullTagValue), custom, a3);
    assert (if includeShard then a3 + {ShardTagKey} else a3) == TierKeys(includeCluster, includeService, includeShard);
  }

  /** Both lemmas above, walked one `Add` at a time. */
  lemma {:induction false} LegacyGetTagsSteps(app: ApplicationTags, configuredSource: string,
                                              includeCluster: bool, includeService: bool, includeShard: bool,
                                              controllerName: Option<string>, actionName: Option<string>,
                                              source: Option<string>)
    requires app.customTags.Some?
    ensures var r := LegacyGetTags(app, configuredSource, includeCluster, includeService, includeShard,
                                   controllerName, actionName, source);
            var added := AddedKeys(includeCluster, includeService, includeShard, controllerName, actionName);
            && (r.Success? <==> app.customTags.value.Keys !! added)
            && (r.Success? ==>
                  && r.value.Keys == app.customTags.value.Keys + added
                  && (forall k :: k in app.customTags.value ==> r.value[k] == app.customTags.value[k])
                  && r.value[ApplicationTagKey] == app.application
                  && r.value[SourceTagKey] == source.GetOr(configuredSource)
                  && (includeCluster ==> r.value[ClusterTagKey] == app.cluster.GetOr(NullTagValue))
                  && (includeService ==> r.value[ServiceTagKey] == app.service)
                  && (includeShard ==> r.value[ShardTagKey] == app.shard.GetOr(NullTagValue))
                  && (controllerName.Some? ==> r.value[ControllerTagKey] == controllerName.value)
                  && (actionName.Some? ==> r.value[ActionTagKey] == actionName.value))
  {
    var custom := app.customTags.value;
    var t3 := TierKeyTags(app, custom, includeCluster, includeService, includeShard);
    var a4 := TierKeys(includeCluster, includeService, includeShard);
    TierKeySteps(app, custom, includeCluster, includeService, includeShard);
    var c := controllerName.GetOr([]);
    var t4 := if controllerName.Some? then AddTag(t3, ControllerTagKey, c) else t3;
    CondStep(t3, controllerName.Some?, ControllerTagKey, c, custom, a4);
    var a5 := if controllerName.Some? then a4 + {ControllerTagKey} else a4;
    var act := actionName.GetOr([]);
    var t5 := if actionName.Some? then AddTag(t4, ActionTagKey, act) else t4;
    CondStep(t4, actionName.Some?, ActionTagKey, act, custom, a5);
    var a6 := if actionName.Some? then a5 + {ActionTagKey} else a5;
    CondStep(t5, true, SourceTagKey, source.GetOr(configuredSource), custom, a6);
    assert a6 + {SourceTagKey} == AddedKeys(includeCluster, includeService, includeShard, controllerName, actionName);
  }

  /** Custom tags that already use "application" make every tag set fail. */
  lemma ApplicationKeyClash(app: ApplicationTags, configuredSource: string,
                            includeCluster: bool, includeService: bool, includeShard: bool,
                            controllerName: Option<string>, actionName: Option<string>, source: Option<string>)
    requires app.customTags.Some? && ApplicationTagKey in app.customTags.value
    ensures LegacyGetTags(app, configuredSource, includeCluster, includeService, includeShard,
                          controllerName, actionName, source) == Failure(DuplicateKey)
  {
  }

  /** The five tier tag sets of a route (or, without names, the overall
      ones); any failing set fails them all. */
  function LegacyTierTags(app: ApplicationTags, configuredSource: string,
                          controllerName: Option<string>, actionName: Option<string>): Result<TierTags, string>
  {
    var provided := Some(WavefrontProvidedSource);
    var perSource := LegacyGetTags(app, configuredSource, true, true, true, controllerName, actionName, None);
    var perShard := LegacyGetTags(app, configuredSource, true, true, true, controllerName, actionName, provided);
    var perService := LegacyGetTags(app, configuredSource, true, true, false, controllerName, actionName, provided);
    var perCluster := LegacyGetTags(app, configuredSource, true, false, false, controllerName, actionName, provided);
    var perApplication := LegacyGetTags(app, configuredSource, false, false, false, controllerName, actionName, provided);
    if perSource.Failure? then Failure(perSource.error)
    else if perShard.Failure? then Failure(perShard.error)
    else if perService.Failure? then Failure(perService.error)
    else if perCluster.Failure? then Failure(perCluster.error)
    else if perApplication.Failure? then Failure(perApplication.error)
    else Success(TierTags(perSource.value, perShard.value, perService.value, perCluster.value, perApplication.value))
  }

  /** Once the complete tag set (every flag, both names) can be built, so
      can every tier set: each adds a subset of its keys. */
  lemma TiersFollowComplete(app: ApplicationTags, configuredSource: string,
                            controllerName: Option<string>, actionName: Option<string>)
    requires LegacyGetTags(app, configuredSource, true, true, true, controllerName, actionName, None).Success?
    ensures LegacyTierTags(app, configuredSource, controllerName, actionName).Success?
    ensures LegacyTierTags(app, configuredSource, controllerName, actionName).value.perSource
            == LegacyGetTags(app, configuredSource, true, true, true, controllerName, actionName, None).value
  {
    var provided := Some(WavefrontProvidedSource);
    LegacyGetTagsIff(app, configuredSource, true, true, true, controllerName, actionName, None);
    LegacyGetTagsIff(app, configuredSource, true, true, true, controllerName, actionName, provided);
    LegacyGetTagsIff(app, configuredSource, true, true, false, controllerName, actionName, provided);
    LegacyGetTagsIff(app, configuredSource, true, false, false, controllerName, actionName, provided);
    LegacyGetTagsIff(app, configuredSource, false, false, false, controllerName, actionName, provided);
  }

  // ---------------------------------------------------------------------
  // Gauges and metrics.

  /** Executing's gauges: the route's goes up, then the total. */
  function LegacyExecutingGauges(g: GaugeRegistry, route: GaugeKey, total: GaugeKey): GaugeRegistry {
    g.Increment(route).Increment(total)
  }

  /** Executed's gauges: the route's goes down, then the total; the
      indexer throws on a gauge never added. */
  function LegacyExecutedGauges(g: GaugeRegistry, route: GaugeKey, total: GaugeKey): (GaugeRegistry, Outcome) {
    match g.Decrement(route)
    case None => (g, Fault(KeyNotFound))
    case Some(g1) =>
      match g1.Decrement(total)
      case None => (g1, Fault(KeyNotFound))
      case Some(g2) => (g2, Pass)
  }

  /** Executed undoes Executing: a net change of zero on both gauges. */
  lemma {:induction false} LegacyGaugeSymmetry(g: GaugeRegistry, route: GaugeKey, total: GaugeKey)
    requires route != total
    ensures LegacyExecutedGauges(LegacyExecutingGauges(g, route, total), route, total)
            == (g.GetOrAdd(route).GetOrAdd(total), Pass)
  {
    PairRoundTrip(g, route, total);
  }

  /** 4xx and 5xx, tested as `400 <= status < 600`. */
  predicate LegacyIsError(statusCode: int) {
    400 <= statusCode < 600
  }

  /** What Executed reports: granular and completed counters, errors
      without a per-route counter, and the latency histogram alone (no
      total-time counter), all under the status-carrying response key. */
  function LegacyEmissions(app: ApplicationTags, responseKey: string, statusCode: int,
                           route: TierTags, overall: TierTags, latency: Option<int>): seq<Emission> {
    Completion(app, responseKey, responseKey, LegacyIsError(statusCode), false, false, route, overall, latency)
  }

  /** The legacy layout: "response.errors" opens the error group, the
      histogram closes the sequence, and the error group is there exactly
      for error statuses. */
  lemma LegacyEmissionsShape(app: ApplicationTags, responseKey: string, statusCode: int,
                             route: TierTags, overall: TierTags, latency: int)
    ensures var es := LegacyEmissions(app, responseKey, statusCode, route, overall, Some(latency));
            var g := 3 + Count(app.shard.Some?) + Count(app.cluster.Some?);
            && |es| == g + (if LegacyIsError(statusCode) then 1 + g else 0) + g + 1
            && (LegacyIsError(statusCode) ==> es[g] == Emission(Counter, ResponseErrors, route.perSource, 1))
            && es[|es| - 1] == Emission(Histogram, responseKey + ".latency", route.perSource, latency)
            && (Named(es, ResponseErrors) <==> LegacyIsError(statusCode))
  {
    var isError := LegacyIsError(statusCode);
    CompletionLayout(app, responseKey, responseKey, isError, false, false, route, overall, Some(latency));
    CompletionLatencyPositions(app, responseKey, responseKey, isError, false, false, route, overall, Some(latency));
    if isError {
      CompletionErrorPositions(app, responseKey, responseKey, isError, false, false, route, overall, Some(latency));
    }
    ErrorsIff(app, responseKey, responseKey, isError, false, false, route, overall, Some(latency));
  }

  /** The legacy error test is the current one. */
  lemma LegacyErrorTestAgrees(statusCode: int)
    ensures LegacyIsError(statusCode) <==> IsErrorStatusCode(statusCode)
  {
  }

  /** The items indexer and the unboxing cast on the start time: the
      indexer gives null for a missing key, whose unboxing throws. */
  function StartTimeOf(items: map<string, ItemValue>): (r: Result<int, string>)
    ensures r.Success? <==> MillisItem(items, StartTimeMillisKey).Some?
    ensures r.Success? ==> r.value == items[StartTimeMillisKey].ms
    ensures StartTimeMillisKey !in items ==> r == Failure(NullReference)
    ensures StartTimeMillisKey in items && !items[StartTimeMillisKey].Millis? ==> r == Failure(InvalidCast)
  {
    if StartTimeMillisKey !in items then Failure(NullReference)
    else if !items[StartTimeMillisKey].Millis? then Failure(InvalidCast)
    else Success(items[StartTimeMillisKey].ms)
  }

  /** What `OnResourceExecuted` reports once the gauges are down, and how
      it ends: the route's tier sets (a failure to build them throws before
      anything is reported), the completion metrics under the
      status-carrying response key, and the latency histogram only when
      the start time can be read; reading it afterwards throws otherwise. */
  function LegacyReport(app: ApplicationTags, tiers: Result<TierTags, string>, overall: TierTags, httpMethod: string,
                        action: ControllerAction, statusCode: int, items: map<string, ItemValue>, now: int)
    : (seq<Emission>, Outcome)
  {
    if tiers.Failure? then ([], Fault(tiers.error))
    else
      var start := StartTimeOf(items);
      (LegacyEmissions(app, LegacyMetricNames.ResponseMetricName(httpMethod, action.routeTemplate, statusCode),
                       statusCode, tiers.value, overall, LatencyOf(start, now)),
       if start.Success? then Pass else Fault(start.error))
  }

  /** The latency measured from a start time that could be read. */
  function LatencyOf(start: Result<int, string>, now: int): (r: Option<int>)
    ensures r.Some? <==> start.Success?
    ensures r.Some? ==> r.value == now - start.value
  {
    if start.Success? then Some(now - start.value) else None
  }

  /** Once the route's tier sets are built (they always are once its
      complete tag set is, see `TiersFollowComplete`), the report is never
      empty, carries "response.errors" exactly for 4xx and 5xx statuses,
      carries the latency histogram exactly when the start time is in the
      items, and ends normally exactly then. */
  lemma LegacyReportIff(app: ApplicationTags, tiers: TierTags, overall: TierTags, httpMethod: string,
                        action: ControllerAction, statusCode: int, items: map<string, ItemValue>, now: int)
    ensures var r := LegacyReport(app, Success(tiers), overall, httpMethod, action, statusCode, items, now);
            var started := MillisItem(items, StartTimeMillisKey).Some?;
            && r.0 != []
            && (Named(r.0, ResponseErrors) <==> IsErrorStatusCode(statusCode))
            && (HasKind(r.0, Histogram) <==> started)
            && (r.1.Pass? <==> started)
  {
    var key := LegacyMetricNames.ResponseMetricName(httpMethod, action.routeTemplate, statusCode);
    var latency := LatencyOf(StartTimeOf(items), now);
    var isError := LegacyIsError(statusCode);
    CompletionLayout(app, key, key, isError, false, false, tiers, overall, latency);
    ErrorsIff(app, key, key, isError, false, false, tiers, overall, latency);
    LatencyIff(app, key, key, isError, false, false, tiers, overall, latency);
    var r := LegacyReport(app, Success(tiers), overall, httpMethod, action, statusCode, items, now);
    assert r.0 == LegacyEmissions(app, key, statusCode, tiers, overall, latency);
  }

  // ---------------------------------------------------------------------
  // The filter.

  class LegacyMetricsResourceFilter {
    const app: ApplicationTags
    /** The configured reporting source. */
    const source: string
    const sink: MetricsSink
    const overall: TierTags
    const totalInflightGauge: GaugeKey
    var gauges: GaugeRegistry

    ghost predicate Valid()
      reads this
    {
      && LegacyTierTags(app, source, None, None) == Success(overall)
      && totalInflightGauge == GaugeKey(Some(AspNetCoreContext), TotalInflightName, overall.perSource)
      && gauges.Valid()
    }

    /** The constructor builds the overall tier sets, so it throws unless
        they can be built. */
    constructor(app: ApplicationTags, source: string, sink: MetricsSink)
      requires LegacyTierTags(app, source, None, None).Success?
      ensures Valid() && this.app == app && this.source == source && this.sink == sink
      ensures gauges == Empty
    {
      this.app := app;
      this.source := source;
      this.sink := sink;
      var tiers := LegacyTierTags(app, source, None, None).value;
      overall := tiers;
      totalInflightGauge := GaugeKey(Some(AspNetCoreContext), TotalInflightName, tiers.perSource);
      gauges := Empty;
      new;
      EmptyValid();
    }

    /** The route gauge, once the complete tag set could be built. */
    function RouteGauge(httpMethod: string, action: ControllerAction): Result<GaugeKey, string>
      reads this
    {
      var complete := LegacyGetTags(app, source, true, true, true, Some(action.controllerName), Some(action.actionName), None);
      if complete.Failure? then Failure(complete.error)
      else Success(GaugeKey(Some(AspNetCoreContext),
                            LegacyMetricNames.RequestMetricName(httpMethod, action.routeTemplate) + InflightSuffix,
                            complete.value))
    }

    /** The route gauge is never the total gauge. */
    lemma RouteIsNotTotal(httpMethod: string, action: ControllerAction)
      requires Valid() && RouteGauge(httpMethod, action).Success?
      ensures RouteGauge(httpMethod, action).value != totalInflightGauge
    {
      var name := LegacyMetricNames.RequestMetricName(httpMethod, action.routeTemplate);
      assert name[0] == 'r';
      assert (name + InflightSuffix)[0] == 'r';
    }

    /** `OnResourceExecuting`: the start time goes into the items; then,
        if the complete tag set can be built, the route gauge and the
        total gauge go up. */
    method OnResourceExecuting(ctx: HttpContext, action: ControllerAction, now: int) returns (outcome: Outcome)
      requires Valid()
      modifies this, ctx
      ensures Valid()
      ensures ctx.items == old(ctx.items)[StartTimeMillisKey := Millis(now)]
      ensures ctx.statusCode == old(ctx.statusCode) && ctx.responseHeaders == old(ctx.responseHeaders)
      ensures ctx.exceptionRecorded == old(ctx.exceptionRecorded)
      ensures var route := RouteGauge(ctx.request.httpMethod, action);
              && (route.Failure? ==> outcome == Fault(route.error) && gauges == old(gauges))
              && (route.Success? ==>
                    outcome.Pass? && gauges == LegacyExecutingGauges(old(gauges), route.value, totalInflightGauge))
    {
      ctx.items := ctx.items[StartTimeMillisKey := Millis(now)];
      var route := RouteGauge(ctx.request.httpMethod, action);
      if route.Failure? {
        return Fault(route.error);
      }
      PairStepsValid(gauges, route.value, totalInflightGauge);
      gauges := LegacyExecutingGauges(gauges, route.value, totalInflightGauge);
      outcome := Pass;
    }

    /** `OnResourceExecuted`: the gauges go down, then the response metrics
        are reported (see `LegacyReport`). */
    method OnResourceExecuted(ctx: HttpContext, action: ControllerAction, now: int) returns (outcome: Outcome)
      requires Valid()
      modifies this, sink
      ensures Valid()
      ensures var route := RouteGauge(ctx.request.httpMethod, action);
              && (route.Failure? ==> outcome == Fault(route.error) && gauges == old(gauges) && sink.log == old(sink.log))
              && (route.Success? ==>
                    var step := LegacyExecutedGauges(old(gauges), route.value, totalInflightGauge);
                    && gauges == step.0
                    && (step.1.Fault? ==> outcome == step.1 && sink.log == old(sink.log))
                    && (step.1.Pass? ==>
                          var tiers := LegacyTierTags(app, source, Some(action.controllerName), Some(action.actionName));
                          var report := LegacyReport(app, tiers, overall, ctx.request.httpMethod, action,
                                                     ctx.statusCode, ctx.items, now);
                          sink.log == old(sink.log) + report.0 && outcome == report.1))
    {
      var route := RouteGauge(ctx.request.httpMethod, action);
      if route.Failure? {
        return Fault(route.error);
      }
      PairStepsValid(gauges, route.value, totalInflightGauge);
      var step := LegacyExecutedGauges(gauges, route.value, totalInflightGauge);
      gauges := step.0;
      if step.1.Fault? {
        return step.1;
      }
      outcome := Report(ctx.request.httpMethod, action, ctx.statusCode, ctx.items, now);
    }

    /** The reporting half of `OnResourceExecuted`. */
    method Report(httpMethod: string, action: ControllerAction, statusCode: int, items: map<string, ItemValue>, now: int)
      returns (outcome: Outcome)
      modifies sink
      ensures var tiers := LegacyTierTags(app, source, Some(action.controllerName), Some(action.actionName));
              var report := LegacyReport(app, tiers, overall, httpMethod, action, statusCode, items, now);
              sink.log == old(sink.log) + report.0 && outcome == report.1
    {
      var tiers := LegacyTierTags(app, source, Some(action.controllerName), Some(action.actionName));
      if tiers.Failure? {
        return Fault(tiers.error);
      }
      var key := LegacyMetricNames.ResponseMetricName(httpMethod, action.routeTemplate, statusCode);
      var start := StartTimeOf(items);
      var latency := LatencyOf(start, now);
      ghost var emissions := LegacyEmissions(app, key, statusCode, tiers.value, overall, latency);
      assert LegacyReport(app, tiers, overall, httpMethod, action, statusCode, items, now).0 == emissions;
      EmitCompletion(sink, app, key, key, LegacyIsError(statusCode), false, false, tiers.value, overall, latency);
      assert sink.log == old(sink.log) + emissions;
      outcome := if start.Success? then Pass else Fault(start.error);
    }
  }
}
